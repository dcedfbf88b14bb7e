/**
 * The line-level driver of the parser (`parse`) and its block parsers for
 * merge, spawn and multi-line raw JSON. Each loop of the source is a
 * tail-recursive function here, and `Parse`, `ParseLinesImpl` and the block
 * methods run those loops with `while` and are proved equal to the functions.
 *
 * A block parser calls `parse("\n".join(inner))` in the source; the model
 * hands the collected lines to `ParseLines` directly; `MergeBlockReparse` and
 * `BranchQueryReparse` show that this is the same thing for the clean lines
 * `parse` works on (`ParseTextLinesClean`).
 */
module Parser {
  import opened Wrappers
  import opened Strings
  import opened JsonData
  import opened Ast
  import opened Scanners
  import opened Args
  import opened Patterns
  import opened Stages

  // ---------------------------------------------------------------------------
  // error messages

  const EmptyDsl := "Empty DSL"
  const EmptyBranch := "Empty branch in spawn"
  const EmptyMergeBlock := "Empty merge block"
  const ExpectedStage := "Expected pipeline stage starting with '|': "
  const ExpectedSource := "Expected: FROM event([..]) or PIPELINE"
  const SourceRequired := "FROM event([...]) requires source=..."
  const DoublePipeInMerge := "Inside merge block, stages must start with '|' (not '||')"
  const SinglePipeInBranch := "Inside spawn branch, pipeline stages must start with '||'"
  const MissingSource := "Missing FROM or PIPELINE"
  const TimeSeriesCountOrLast := "TIMESERIES requires exactly one of count=... or last=..."
  const TimeSeriesRequired := "TIMESERIES requires period=..., first=..., and count=... or last=..."
  const UnexpectedInSpawn := "Unexpected line in spawn block: "
  const MissingEndspawn := "spawn block missing '| endspawn'"

  /** The lines from `idx` on; 0 once `idx` is past the end. */
  function Remaining(lines: seq<string>, idx: nat): nat {
    if idx <= |lines| then |lines| - idx else 0
  }

  /** `parse(dsl)` */
  function ParseText(codec: Codec, dsl: string): Result<Query> {
    ParseLines(codec, CleanLines(SplitLines(dsl)))
  }

  /** `parse` after the lines are stripped and blank and `#` lines dropped. */
  function ParseLines(codec: Codec, lines: seq<string>): (r: Result<Query>)
    ensures lines == [] ==> r.Err?
    ensures r.Ok? ==> WellFormedQuery(r.value)
    decreases |lines|, 4, 0
  {
    if lines == [] then Err(EmptyDsl)
    else
      var h :- Headers(lines, 0, DefaultMimeType, None);
      SourceAt(codec, lines, h.end, h.mime, h.name)
  }

  /** On lines, `parse` fails as the header loop fails, and otherwise reads the source where the headers end. */
  lemma ParseLinesHeaders(codec: Codec, lines: seq<string>)
    requires lines != []
    ensures var h := Headers(lines, 0, DefaultMimeType, None);
            && (h.Err? ==> ParseLines(codec, lines) == Err(h.msg))
            && (h.Ok? ==> ParseLines(codec, lines) == SourceAt(codec, lines, h.value.end, h.value.mime, h.value.name))
  {
  }

  /** What `parse` guarantees of every query it returns. */
  predicate WellFormedQuery(q: Query) {
    q.timeSeries.Some? ==> q.eventSource.Some? && WellFormedTimeSeries(q.timeSeries.value)
  }

  /** The `mimeType` a RESPONSE line sets, if it is one and names one. */
  function MimeAt(line: string): Option<string> {
    if ResponseRest(line).Some? && KvPairs(ResponseRest(line).value).Ok?
       && Get(KvPairs(ResponseRest(line).value).value, "mimeType").Some?
    then Some(ScalarText(Get(KvPairs(ResponseRest(line).value).value, "mimeType").value))
    else None
  }

  /** The `name` a REQUEST line sets, if it is one and names one. */
  function NameAt(line: string): Option<string> {
    if ResponseRest(line).None? && RequestRest(line).Some? && KvPairs(RequestRest(line).value).Ok?
       && Get(KvPairs(RequestRest(line).value).value, "name").Some?
    then Some(ScalarText(Get(KvPairs(RequestRest(line).value).value, "name").value))
    else None
  }

  /** A header line whose `key=value` pairs read. */
  predicate HeaderLine(line: string) {
    (ResponseRest(line).Some? && KvPairs(ResponseRest(line).value).Ok?)
    || (ResponseRest(line).None? && RequestRest(line).Some? && KvPairs(RequestRest(line).value).Ok?)
  }

  /** Where the header lines end, and the response MIME type and request name they leave. */
  datatype Header = Header(end: nat, mime: string, name: Option<string>)

  /** The RESPONSE / REQUEST header loop. */
  function Headers(lines: seq<string>, idx: nat, mime: string, name: Option<string>): (r: Result<Header>)
    ensures r.Ok? && idx <= |lines| ==> idx <= r.value.end <= |lines|
    ensures idx >= |lines| || (ResponseRest(lines[idx]).None? && RequestRest(lines[idx]).None?) ==> r == Ok(Header(idx, mime, name))
    ensures idx < |lines| && ResponseRest(lines[idx]).Some? && KvPairs(ResponseRest(lines[idx]).value).Err? ==>
              r == Err(KvPairs(ResponseRest(lines[idx]).value).msg)
    ensures idx < |lines| && ResponseRest(lines[idx]).None? && RequestRest(lines[idx]).Some? && KvPairs(RequestRest(lines[idx]).value).Err? ==>
              r == Err(KvPairs(RequestRest(lines[idx]).value).msg)
    decreases Remaining(lines, idx)
  {
    if idx < |lines| && ResponseRest(lines[idx]).Some? then
      var _ :- KvPairs(ResponseRest(lines[idx]).value);
      Headers(lines, idx + 1, MimeOr(lines[idx], mime), name)
    else if idx < |lines| && RequestRest(lines[idx]).Some? then
      var _ :- KvPairs(RequestRest(lines[idx]).value);
      Headers(lines, idx + 1, mime, NameOr(lines[idx], name))
    else Ok(Header(idx, mime, name))
  }

  function MimeOr(line: string, mime: string): string {
    if MimeAt(line).Some? then MimeAt(line).value else mime
  }

  function NameOr(line: string, name: Option<string>): Option<string> {
    if NameAt(line).Some? then NameAt(line) else name
  }

  /** Every line in `[lo, hi)` is a header line whose pairs read. */
  ghost predicate AllHeaderLines(lines: seq<string>, lo: nat, hi: nat) {
    forall i {:trigger HeaderLine(lines[i])} :: lo <= i < hi && i < |lines| ==> HeaderLine(lines[i])
  }

  /** Every line the header loop passes over is a header line whose pairs read. */
  lemma {:induction false} HeadersSpan(lines: seq<string>, idx: nat, mime: string, name: Option<string>)
    ensures var r := Headers(lines, idx, mime, name);
            r.Ok? ==> AllHeaderLines(lines, idx, r.value.end)
    decreases Remaining(lines, idx)
  {
    var r := Headers(lines, idx, mime, name);
    if r.Ok? && idx < |lines| && (ResponseRest(lines[idx]).Some? || RequestRest(lines[idx]).Some?) {
      var m', n' := HeaderNext(lines, idx, mime, name);
      HeadersSpan(lines, idx + 1, m', n');
      var e := r.value.end;
      assert AllHeaderLines(lines, idx + 1, e);
      forall i | idx <= i < e && i < |lines| ensures HeaderLine(lines[i]) {
        if idx < i {
          assert idx + 1 <= i;
        }
      }
    }
  }

  /** The header loop stops at the first line that is neither RESPONSE nor REQUEST. */
  lemma {:induction false} HeadersStop(lines: seq<string>, idx: nat, mime: string, name: Option<string>)
    ensures var r := Headers(lines, idx, mime, name);
            r.Ok? && r.value.end < |lines| ==> ResponseRest(lines[r.value.end]).None? && RequestRest(lines[r.value.end]).None?
    decreases Remaining(lines, idx)
  {
    var r := Headers(lines, idx, mime, name);
    if r.Ok? && idx < |lines| && (ResponseRest(lines[idx]).Some? || RequestRest(lines[idx]).Some?) {
      var m', n' := HeaderNext(lines, idx, mime, name);
      HeadersStop(lines, idx + 1, m', n');
    } else if r.Ok? {
      assert r.value.end == idx;
    }
  }

  /** A RESPONSE or REQUEST line whose pairs do not read is an error. */
  lemma HeadersError(lines: seq<string>, idx: nat, mime: string, name: Option<string>)
    requires idx < |lines| && !HeaderLine(lines[idx])
    requires ResponseRest(lines[idx]).Some? || RequestRest(lines[idx]).Some?
    ensures Headers(lines, idx, mime, name).Err?
  {
  }

  /** A RESPONSE or REQUEST line whose pairs read moves the loop on, with the `mimeType` or `name` it sets. */
  lemma HeaderNext(lines: seq<string>, idx: nat, mime: string, name: Option<string>) returns (m: string, n: Option<string>)
    requires idx < |lines| && (ResponseRest(lines[idx]).Some? || RequestRest(lines[idx]).Some?)
    requires Headers(lines, idx, mime, name).Ok?
    ensures HeaderLine(lines[idx])
    ensures m == MimeOr(lines[idx], mime) && n == NameOr(lines[idx], name)
    ensures Headers(lines, idx, mime, name) == Headers(lines, idx + 1, m, n)
  {
    m, n := mime, name;
    if ResponseRest(lines[idx]).Some? {
      m := MimeOr(lines[idx], mime);
    } else {
      n := NameOr(lines[idx], name);
    }
  }

  /** A RESPONSE line whose pairs read: the loop goes on with its `mimeType`, if it sets one. */
  lemma HeaderResponseStep(lines: seq<string>, idx: nat, mime: string, name: Option<string>, kv: Dict<Scalar>)
    requires idx < |lines| && ResponseRest(lines[idx]).Some? && KvPairs(ResponseRest(lines[idx]).value) == Ok(kv)
    ensures Headers(lines, idx, mime, name)
         == Headers(lines, idx + 1, if Get(kv, "mimeType").Some? then ScalarText(Get(kv, "mimeType").value) else mime, name)
  {
  }

  /** A REQUEST line whose pairs read: the loop goes on with its `name`, if it sets one. */
  lemma HeaderRequestStep(lines: seq<string>, idx: nat, mime: string, name: Option<string>, kv: Dict<Scalar>)
    requires idx < |lines| && ResponseRest(lines[idx]).None? && RequestRest(lines[idx]).Some?
    requires KvPairs(RequestRest(lines[idx]).value) == Ok(kv)
    ensures Headers(lines, idx, mime, name)
         == Headers(lines, idx + 1, mime, if Get(kv, "name").Some? then Some(ScalarText(Get(kv, "name").value)) else name)
  {
  }

  /** When no line from `idx` on sets a `mimeType`, the loop keeps the one it holds. */
  lemma HeaderMimeKept(lines: seq<string>, idx: nat, mime: string, name: Option<string>)
    requires forall i :: idx <= i < |lines| ==> MimeAt(lines[i]).None?
    ensures Headers(lines, idx, mime, name).Ok? ==> Headers(lines, idx, mime, name).value.mime == mime
  {
    HeaderLastMime(lines, idx, mime, name);
  }

  /** When no line from `idx` on sets a `name`, the loop keeps the one it holds. */
  lemma HeaderNameKept(lines: seq<string>, idx: nat, mime: string, name: Option<string>)
    requires forall i :: idx <= i < |lines| ==> NameAt(lines[i]).None?
    ensures Headers(lines, idx, mime, name).Ok? ==> Headers(lines, idx, mime, name).value.name == name
  {
    HeaderLastName(lines, idx, mime, name);
  }

  /** The query `parse` returns carries the MIME type and request name the header lines leave. */
  lemma ParseLinesHeader(codec: Codec, lines: seq<string>)
    requires ParseLines(codec, lines).Ok?
    ensures Headers(lines, 0, DefaultMimeType, None).Ok?
    ensures var h := Headers(lines, 0, DefaultMimeType, None).value;
            var q := ParseLines(codec, lines).value;
            q.responseMimeType == h.mime && q.requestName == h.name
  {
  }

  /** With no header line that sets them, the query keeps `application/json` and no request name. */
  lemma HeaderDefaults(codec: Codec, lines: seq<string>)
    ensures var r := ParseLines(codec, lines);
            r.Ok? && (forall j :: 0 <= j < |lines| ==> MimeAt(lines[j]).None?) ==> r.value.responseMimeType == "application/json"
    ensures var r := ParseLines(codec, lines);
            r.Ok? && (forall j :: 0 <= j < |lines| ==> NameAt(lines[j]).None?) ==> r.value.requestName.None?
  {
    if ParseLines(codec, lines).Ok? {
      ParseLinesHeader(codec, lines);
      if forall j :: 0 <= j < |lines| ==> MimeAt(lines[j]).None? {
        HeaderMimeKept(lines, 0, DefaultMimeType, None);
      }
      if forall j :: 0 <= j < |lines| ==> NameAt(lines[j]).None? {
        HeaderNameKept(lines, 0, DefaultMimeType, None);
      }
    }
  }

  /** No line in `[lo, hi)` sets a `mimeType`. */
  ghost predicate NoMimeIn(lines: seq<string>, lo: nat, hi: nat) {
    forall i :: lo <= i < hi && i < |lines| ==> MimeAt(lines[i]).None?
  }

  /** Line `j` in `[lo, hi)` sets `m`, and no later line in the range sets a `mimeType`. */
  ghost predicate LastMimeAt(lines: seq<string>, lo: nat, hi: nat, j: nat, m: string) {
    lo <= j < hi && j < |lines| && MimeAt(lines[j]) == Some(m) && NoMimeIn(lines, j + 1, hi)
  }

  /** No line in `[lo, hi)` sets a `name`. */
  ghost predicate NoNameIn(lines: seq<string>, lo: nat, hi: nat) {
    forall i :: lo <= i < hi && i < |lines| ==> NameAt(lines[i]).None?
  }

  /** Line `j` in `[lo, hi)` sets `n`, and no later line in the range sets a `name`. */
  ghost predicate LastNameAt(lines: seq<string>, lo: nat, hi: nat, j: nat, n: Option<string>) {
    lo <= j < hi && j < |lines| && NameAt(lines[j]).Some? && NameAt(lines[j]) == n && NoNameIn(lines, j + 1, hi)
  }

  /**
   * Header lines apply in order, the last one wins: the MIME type the loop leaves is the
   * `mimeType` of the last header line that names one, or the one it started with if none does.
   */
  lemma {:induction false} HeaderLastMime(lines: seq<string>, idx: nat, mime: string, name: Option<string>)
    ensures var r := Headers(lines, idx, mime, name);
            r.Ok? ==> (r.value.mime == mime && NoMimeIn(lines, idx, r.value.end))
                      || exists j :: LastMimeAt(lines, idx, r.value.end, j, r.value.mime)
    decreases Remaining(lines, idx)
  {
    var r := Headers(lines, idx, mime, name);
    if r.Ok? && idx < |lines| && (ResponseRest(lines[idx]).Some? || RequestRest(lines[idx]).Some?) {
      var m', n' := HeaderNext(lines, idx, mime, name);
      HeaderLastMime(lines, idx + 1, m', n');
      var e := r.value.end;
      assert idx < e;
      var lo, v := idx + 1, r.value.mime;
      if exists j :: LastMimeAt(lines, lo, e, j, v) {
        var j :| LastMimeAt(lines, lo, e, j, v);
        assert LastMimeAt(lines, idx, e, j, r.value.mime);
      } else if MimeAt(lines[idx]).Some? {
        assert LastMimeAt(lines, idx, e, idx, r.value.mime);
      } else {
        assert NoMimeIn(lines, idx, e);
      }
    }
  }

  /** The `name` the loop leaves is the one on the last REQUEST line that names one, or the one it started with. */
  lemma {:induction false} HeaderLastName(lines: seq<string>, idx: nat, mime: string, name: Option<string>)
    ensures var r := Headers(lines, idx, mime, name);
            r.Ok? ==> (r.value.name == name && NoNameIn(lines, idx, r.value.end))
                      || exists j :: LastNameAt(lines, idx, r.value.end, j, r.value.name)
    decreases Remaining(lines, idx)
  {
    var r := Headers(lines, idx, mime, name);
    if r.Ok? && idx < |lines| && (ResponseRest(lines[idx]).Some? || RequestRest(lines[idx]).Some?) {
      var m', n' := HeaderNext(lines, idx, mime, name);
      HeaderLastName(lines, idx + 1, m', n');
      var e := r.value.end;
      assert idx < e;
      var lo, v := idx + 1, r.value.name;
      if exists j :: LastNameAt(lines, lo, e, j, v) {
        var j :| LastNameAt(lines, lo, e, j, v);
        assert LastNameAt(lines, idx, e, j, r.value.name);
      } else if NameAt(lines[idx]).Some? {
        assert LastNameAt(lines, idx, e, idx, r.value.name);
      } else {
        assert NoNameIn(lines, idx, e);
      }
    }
  }

  /** TIMESERIES `key=value` pairs: `period` and `first`, and exactly one of `count` and `last`. */
  function TimeSeriesOf(kv: Dict<Scalar>): (r: Result<TimeSeries>)
    ensures Get(kv, "period").None? || Get(kv, "first").None? ==> r.Err?
    ensures Get(kv, "count").Some? == Get(kv, "last").Some? ==> r.Err?
    ensures r.Ok? ==> WellFormedTimeSeries(r.value)
    ensures r.Ok? ==> r.value.period == ScalarText(Get(kv, "period").value)
    ensures r.Ok? ==> CoerceTimeValue(Get(kv, "first").value) == Ok(r.value.first)
    ensures r.Ok? ==> (r.value.count.Some? <==> Get(kv, "count").Some?)
    ensures r.Ok? ==> (r.value.last.Some? <==> Get(kv, "last").Some?)
    ensures r.Ok? && r.value.count.Some? ==> ScalarInt(Get(kv, "count").value) == Ok(r.value.count.value)
    ensures r.Ok? && r.value.last.Some? ==> CoerceTimeValue(Get(kv, "last").value) == Ok(r.value.last.value)
    ensures (Get(kv, "period").Some? && Get(kv, "first").Some? && Get(kv, "count").Some? != Get(kv, "last").Some?
             && CoerceTimeValue(Get(kv, "first").value).Ok?
             && (Get(kv, "count").Some? ==> ScalarInt(Get(kv, "count").value).Ok?)
             && (Get(kv, "last").Some? ==> CoerceTimeValue(Get(kv, "last").value).Ok?)) ==> r.Ok?
  {
    if Get(kv, "period").None? || Get(kv, "first").None? then
      Err(TimeSeriesRequired)
    else
      var hasCount := Get(kv, "count").Some?;
      var hasLast := Get(kv, "last").Some?;
      if hasCount == hasLast then Err(TimeSeriesCountOrLast)
      else
        var first :- CoerceTimeValue(Get(kv, "first").value);
        var period := ScalarText(Get(kv, "period").value);
        if hasCount then
          var count :- ScalarInt(Get(kv, "count").value);
          Ok(TimeSeries(period, first, Some(count), None))
        else
          var last :- CoerceTimeValue(Get(kv, "last").value);
          Ok(TimeSeries(period, first, None, Some(last)))
  }

  /** The FROM line: `FROM event([k=v, ...])`, whose `source` argument names the event source. */
  function FromLine(line: string): (r: Result<EventSource>)
    ensures r.Ok? <==> FromArgs(line).Some? && BracketArgs(FromArgs(line).value).Ok?
                       && Get(BracketArgs(FromArgs(line).value).value, "source").Some?
    ensures r.Ok? ==> r.value.sourceType == ScalarText(Get(BracketArgs(FromArgs(line).value).value, "source").value)
  {
    match FromArgs(line)
    case None => Err(ExpectedSource)
    case Some(a) =>
      var args :- BracketArgs(a);
      match Get(args, "source")
      case None => Err(SourceRequired)
      case Some(src) => Ok(EventSource(ScalarText(src), Remove(args, "source")))
  }

  /** The source's parameters are its bracket arguments without `source`, as `args.pop("source")` leaves them. */
  lemma FromLineParams(line: string)
    requires FromLine(line).Ok?
    ensures var args := BracketArgs(FromArgs(line).value).value;
            forall k :: Get(FromLine(line).value.params, k) == if k == "source" then None else Get(args, k)
  {
    BracketArgsDistinct(FromArgs(line).value);
    RemoveDistinct(BracketArgs(FromArgs(line).value).value, "source");
  }

  /** The `key=value` pairs of a TIMESERIES line. */
  function TimeSeriesLine(text: string): (r: Result<TimeSeries>)
    ensures KvPairs(text).Err? ==> r.Err?
    ensures r.Ok? ==> WellFormedTimeSeries(r.value)
  {
    var kv :- KvPairs(text);
    TimeSeriesOf(kv)
  }

  /**
   * The PIPELINE line, or the FROM line and an optional TIMESERIES line: the query
   * they open, still without stages, and the index of the line after them.
   */
  function Opening(lines: seq<string>, idx: nat, mime: string, name: Option<string>): (r: Result<(Query, int)>)
    requires idx < |lines|
    ensures r.Ok? ==> idx < r.value.1 <= |lines| && WellFormedQuery(r.value.0) && r.value.0.stages == []
    ensures r.Ok? ==> r.value.0.responseMimeType == mime && r.value.0.requestName == name
    ensures r.Ok? ==> (r.value.0.eventSource.None? <==> IsPipelineLine(lines[idx]))
    ensures !IsPipelineLine(lines[idx]) && FromArgs(lines[idx]).None? ==> r == Err(ExpectedSource)
    ensures !IsPipelineLine(lines[idx]) && FromLine(lines[idx]).Err? ==> r.Err?
    ensures r.Ok? && !IsPipelineLine(lines[idx]) ==> FromLine(lines[idx]) == Ok(r.value.0.eventSource.value)
    ensures r.Ok? ==> (r.value.0.timeSeries.Some? <==>
                       !IsPipelineLine(lines[idx]) && idx + 1 < |lines| && TimeseriesRest(lines[idx + 1]).Some?)
    ensures r.Ok? && r.value.0.timeSeries.Some? ==>
              r.value.1 == idx + 2 && TimeSeriesLine(TimeseriesRest(lines[idx + 1]).value) == Ok(r.value.0.timeSeries.value)
    ensures r.Ok? && r.value.0.timeSeries.None? ==> r.value.1 == idx + 1
  {
    if IsPipelineLine(lines[idx]) then Ok((Query(None, None, [], mime, name), idx + 1))
    else
      var es :- FromLine(lines[idx]);
      if idx + 1 < |lines| && TimeseriesRest(lines[idx + 1]).Some? then
        var ts :- TimeSeriesLine(TimeseriesRest(lines[idx + 1]).value);
        Ok((Query(Some(es), Some(ts), [], mime, name), idx + 2))
      else Ok((Query(Some(es), None, [], mime, name), idx + 1))
  }

  /** The opening lines after the header, then the stage loop. */
  function SourceAt(codec: Codec, lines: seq<string>, idx: nat, mime: string, name: Option<string>): (r: Result<Query>)
    ensures r.Ok? ==> WellFormedQuery(r.value)
    ensures r.Ok? ==> r.value.responseMimeType == mime && r.value.requestName == name
    ensures idx >= |lines| ==> r.Err?
    decreases |lines|, 2, 0
  {
    if idx >= |lines| then Err(MissingSource)
    else
      var opening :- Opening(lines, idx, mime, name);
      StagesFrom(codec, lines, opening.1, opening.0)
  }

  /** `line[1:].strip()` for a single-`|` line, the line itself otherwise. */
  function Control(line: string): string {
    if StartsWith(line, "|") && !StartsWith(line, "||") then Strip(line[1..]) else line
  }

  /** The stage loop: every remaining line must be a `|` stage, a block start or a block's body. */
  function StagesFrom(codec: Codec, lines: seq<string>, idx: nat, q: Query): (r: Result<Query>)
    requires WellFormedQuery(q)
    ensures r.Ok? ==> q.stages <= r.value.stages && |r.value.stages| <= |q.stages| + Remaining(lines, idx)
    ensures r.Ok? ==> r.value.eventSource == q.eventSource && r.value.timeSeries == q.timeSeries
    ensures r.Ok? ==> r.value.responseMimeType == q.responseMimeType && r.value.requestName == q.requestName
    ensures idx >= |lines| ==> r == Ok(q)
    ensures idx < |lines| && PipeRest(lines[idx]).None? ==> r == Err(ExpectedStage + lines[idx])
    ensures idx < |lines| && PipeRest(lines[idx]).Some? && StageAt(codec, lines, idx, Strip(PipeRest(lines[idx]).value)).Err? ==>
              r == Err(StageAt(codec, lines, idx, Strip(PipeRest(lines[idx]).value)).msg)
    ensures r.Ok? && idx < |lines| ==>
              PipeRest(lines[idx]).Some? && StageAt(codec, lines, idx, Strip(PipeRest(lines[idx]).value)).Ok? &&
              |q.stages| < |r.value.stages| &&
              r.value.stages[|q.stages|] == StageAt(codec, lines, idx, Strip(PipeRest(lines[idx]).value)).value.0
    decreases Remaining(lines, idx), 2, 0
  {
    if idx >= |lines| then Ok(q)
    else
      match PipeRest(lines[idx])
      case None => Err(ExpectedStage + lines[idx])
      case Some(rest) =>
        var sn :- StageAt(codec, lines, idx, Strip(rest));
        StagesFrom(codec, lines, sn.1, q.(stages := q.stages + [sn.0]))
  }

  /** The stage texts that start a block. */
  predicate IsSpawnStart(text: string) {
    Lower(text) == "spawn"
  }

  predicate IsMergeStart(text: string) {
    StartsWithCI(text, "merge ")
  }

  predicate IsRawStart(text: string)
    ensures IsRawStart(text) ==> |text| >= 4
  {
    StartsWithCI(text, "raw ")
  }

  predicate IsBulkExpandStart(text: string)
    ensures IsBulkExpandStart(text) ==> |text| >= 11
  {
    StartsWithCI(text, "bulkexpand ")
  }

  /** One stage of the stage loop whose text `text` is on line `idx`, and the index of the line after it. */
  function StageAt(codec: Codec, lines: seq<string>, idx: nat, text: string): (r: Result<(Stage, int)>)
    requires idx < |lines|
    ensures r.Ok? ==> idx < r.value.1 <= |lines|
    decreases Remaining(lines, idx), 1, 2
  {
    if IsSpawnStart(text) then
      var sb :- SpawnBlock(codec, lines, idx + 1);
      Ok((Spawn(sb.0), sb.1))
    else if IsMergeStart(text) then
      MergeStage(codec, lines, idx, text)
    else if IsRawStart(text) then
      var rb :- RawFrom(codec, [Strip(text[4..])], lines, idx + 1);
      Ok((Raw(rb.0), rb.1))
    else if IsBulkExpandStart(text) then
      var rb :- RawFrom(codec, [Strip(text[11..])], lines, idx + 1);
      Ok((BulkExpand(rb.0), rb.1))
    else
      var st :- ParseStage(codec, text);
      Ok((st, idx + 1))
  }

  // ---------------------------------------------------------------------------
  // merge blocks

  /** The merge stage its header line describes, before its block is read. */
  function MergeHeaderStage(text: string): (r: Result<Stage>)
    ensures r.Ok? ==> r.value.Merge? && r.value.mergeFields != [] && r.value.query.None?
  {
    var header :- ParseMergeHeader(text);
    Ok(Merge(header.0, header.1, None))
  }

  /** A merge stage: its header on line `idx`, then its block on the lines after it. */
  function MergeStage(codec: Codec, lines: seq<string>, idx: nat, text: string): (r: Result<(Stage, int)>)
    requires idx < |lines|
    ensures r.Ok? ==> idx < r.value.1 <= |lines| && r.value.0.Merge? && r.value.0.query.Some?
    decreases Remaining(lines, idx), 1, 1
  {
    var header :- MergeHeaderStage(text);
    var mb :- MergeBlock(codec, lines, idx + 1);
    Ok((header.(query := Some(mb.0)), mb.1))
  }

  /**
   * A merge stage is accepted exactly when its header and its block parse; it carries the
   * header's fields and mappings and the block's query, and parsing goes on after the block.
   */
  lemma MergeStageOf(codec: Codec, lines: seq<string>, idx: nat, text: string)
    requires idx < |lines|
    ensures var r := MergeStage(codec, lines, idx, text);
            && (r.Ok? <==> ParseMergeHeader(text).Ok? && MergeBlock(codec, lines, idx + 1).Ok?)
            && (r.Ok? ==> r.value.0.mergeFields == ParseMergeHeader(text).value.0
                          && r.value.0.mappings == ParseMergeHeader(text).value.1
                          && r.value.0.query == Some(MergeBlock(codec, lines, idx + 1).value.0)
                          && r.value.1 == MergeBlock(codec, lines, idx + 1).value.1)
  {
  }

  /** What one line of a block does: close it, fail, or add a (rewritten) line and go on. */
  datatype BlockLine = Close | Reject(msg: string) | Keep(line: string, inMerge: bool)

  /** One line of a merge block: `endmerge` closes it, `>>` is a nested stage, `||` is refused. */
  function MergeLine(line: string): (r: BlockLine)
    ensures r.Close? <==> Lower(Control(line)) == "endmerge"
    ensures r.Reject? <==> !r.Close? && StartsWith(line, "||")
    ensures r.Reject? ==> r.msg == DoublePipeInMerge
    ensures r.Keep? ==> !r.inMerge
    ensures r.Keep? && StartsWith(line, ">>") ==> r.line == "|" + LStrip(line[2..])
    ensures r.Keep? && !StartsWith(line, ">>") ==> r.line == line
  {
    if Lower(Control(line)) == "endmerge" then Close
    else if StartsWith(line, ">>") then Keep("|" + LStrip(line[2..]), false)
    else if StartsWith(line, "||") then Reject(DoublePipeInMerge)
    else Keep(line, false)
  }

  /** The line loop of `_parse_merge_block`: the collected inner lines and the index after the block. */
  function MergeLines(lines: seq<string>, i: nat, inner: seq<string>): (r: Result<(seq<string>, int)>)
    ensures r.Ok? ==> i <= r.value.1 && |r.value.0| <= |inner| + Remaining(lines, i)
    ensures r.Ok? && i <= |lines| ==> r.value.1 <= |lines|
    decreases Remaining(lines, i)
  {
    if i >= |lines| then Ok((inner, i))
    else
      match MergeLine(lines[i])
      case Close => Ok((inner, i + 1))
      case Reject(msg) => Err(msg)
      case Keep(line, _) => MergeLines(lines, i + 1, inner + [line])
  }

  /** What each line of the input would do inside a merge block. */
  function MergeActions(lines: seq<string>): (r: seq<BlockLine>)
    ensures |r| == |lines|
    ensures forall m :: 0 <= m < |lines| ==> r[m] == MergeLine(lines[m])
  {
    seq(|lines|, m requires 0 <= m < |lines| => MergeLine(lines[m]))
  }

  /** The first action from `i` on that does not keep its line; `|bs|` when every one does. */
  function KeepStop(bs: seq<BlockLine>, i: nat): (k: nat)
    requires i <= |bs|
    ensures i <= k <= |bs|
    ensures forall m :: i <= m < k ==> bs[m].Keep?
    ensures k < |bs| ==> !bs[k].Keep?
    decreases |bs| - i
  {
    if i == |bs| || !bs[i].Keep? then i else KeepStop(bs, i + 1)
  }

  /** The lines kept by actions `i` to `k`. */
  function KeptOf(bs: seq<BlockLine>, i: nat, k: nat): (r: seq<string>)
    requires i <= k <= |bs|
    requires forall m :: i <= m < k ==> bs[m].Keep?
    ensures |r| == k - i
    ensures forall m :: 0 <= m < k - i ==> r[m] == bs[i + m].line
  {
    seq(k - i, m requires 0 <= m < k - i => bs[i + m].line)
  }

  /**
   * What a block's line loop should return, from the actions of its lines: every kept
   * line up to the first action that does not keep one, and then the index after that
   * line when it closes the block, its error when it rejects the line, or the end of
   * the input when there is no such action.
   */
  function BlockRef(bs: seq<BlockLine>, i: nat, inner: seq<string>): Result<(seq<string>, int)>
    requires i <= |bs|
  {
    var k := KeepStop(bs, i);
    if k == |bs| then Ok((inner + KeptOf(bs, i, k), k))
    else if bs[k].Reject? then Err(bs[k].msg)
    else Ok((inner + KeptOf(bs, i, k), k + 1))
  }

  /** A sequence is its first element followed by a sequence that matches the rest of it. */
  lemma ConsOf<T>(a: seq<T>, x: T, c: seq<T>)
    requires |a| == |c| + 1 && a[0] == x
    requires forall m :: 0 <= m < |c| ==> a[m + 1] == c[m]
    ensures a == [x] + c
  {
  }

  /** Appending `x` and then the rest is appending the whole sequence. */
  lemma AppendCons<T>(inner: seq<T>, x: T, c: seq<T>, a: seq<T>)
    requires a == [x] + c
    ensures inner + [x] + c == inner + a
  {
  }

  /** A kept line moves the reference description on by one line. */
  lemma BlockRefStep(bs: seq<BlockLine>, i: nat, inner: seq<string>)
    requires i < |bs| && bs[i].Keep?
    ensures BlockRef(bs, i, inner) == BlockRef(bs, i + 1, inner + [bs[i].line])
  {
    var k := KeepStop(bs, i);
    assert k == KeepStop(bs, i + 1);
    var a := KeptOf(bs, i, k);
    var c := KeptOf(bs, i + 1, k);
    forall m | 0 <= m < |c| ensures a[m + 1] == c[m] {
      assert i + (m + 1) == (i + 1) + m;
    }
    ConsOf(a, bs[i].line, c);
    AppendCons(inner, bs[i].line, c, a);
  }

  /** An action that does not keep its line, or the end of the input, ends the block where it stands. */
  lemma BlockRefStop(bs: seq<BlockLine>, i: nat, inner: seq<string>)
    requires i <= |bs| && (i == |bs| || !bs[i].Keep?)
    ensures i == |bs| ==> BlockRef(bs, i, inner) == Ok((inner, i))
    ensures i < |bs| && bs[i].Reject? ==> BlockRef(bs, i, inner) == Err(bs[i].msg)
    ensures i < |bs| && bs[i].Close? ==> BlockRef(bs, i, inner) == Ok((inner, i + 1))
  {
    assert KeepStop(bs, i) == i;
    assert inner + KeptOf(bs, i, i) == inner;
  }

  /**
   * The merge line loop keeps every line up to the first one that is not kept; the
   * block then ends after an `endmerge` line, fails on a `||` stage, and runs to the
   * end of the input when neither comes.
   */
  lemma {:induction false} MergeLinesSpec(lines: seq<string>, i: nat, inner: seq<string>)
    requires i <= |lines|
    ensures MergeLines(lines, i, inner) == BlockRef(MergeActions(lines), i, inner)
    decreases |lines| - i
  {
    var bs := MergeActions(lines);
    if i == |lines| {
      BlockRefStop(bs, i, inner);
    } else {
      var b := MergeLine(lines[i]);
      assert bs[i] == b;
      if b.Keep? {
        assert MergeLines(lines, i, inner) == MergeLines(lines, i + 1, inner + [b.line]);
        BlockRefStep(bs, i, inner);
        MergeLinesSpec(lines, i + 1, inner + [b.line]);
      } else if b.Close? {
        assert MergeLines(lines, i, inner) == Ok((inner, i + 1));
        BlockRefStop(bs, i, inner);
      } else {
        assert MergeLines(lines, i, inner) == Err(b.msg);
        BlockRefStop(bs, i, inner);
      }
    }
  }

  /** `_parse_merge_block`: a non-empty block parsed as a query of its own. */
  function MergeBlock(codec: Codec, lines: seq<string>, s: nat): (r: Result<(Query, int)>)
    ensures r.Ok? ==> s <= r.value.1 && WellFormedQuery(r.value.0)
    ensures r.Ok? && s <= |lines| ==> r.value.1 <= |lines|
    ensures MergeLines(lines, s, []).Err? ==> r.Err?
    ensures MergeLines(lines, s, []).Ok? && MergeLines(lines, s, []).value.0 == [] ==> r == Err(EmptyMergeBlock)
    ensures r.Ok? ==> MergeLines(lines, s, []).Ok? && r.value.1 == MergeLines(lines, s, []).value.1
    decreases Remaining(lines, s) + 1, 1, 0
  {
    var ml :- MergeLines(lines, s, []);
    if ml.0 == [] then Err(EmptyMergeBlock)
    else
      var mq :- ParseLines(codec, ml.0);
      Ok((mq, ml.1))
  }

  // ---------------------------------------------------------------------------
  // spawn blocks

  /** A `||` line is its own control text, and that never reads as a keyword. */
  lemma PipedNotKeyword(l2: string)
    ensures StartsWith(l2, "||") ==> Lower(Control(l2)) != "endbranch"
  {
    if StartsWith(l2, "||") {
      assert Lower(Control(l2))[0] == '|';
    }
  }

  /**
   * One line of a spawn branch, with whether a nested merge block is open: `endbranch`
   * closes the branch, a single-`|` stage outside a merge is refused, and `||` becomes `|`.
   */
  function BranchLine(l2: string, inMerge: bool): (r: BlockLine)
    ensures r.Close? <==> Lower(Control(l2)) == "endbranch"
    ensures r.Reject? ==> r.msg == SinglePipeInBranch && StartsWith(l2, "|") && !StartsWith(l2, "||")
    ensures !r.Close? && StartsWith(l2, "|") && !StartsWith(l2, "||") && !inMerge ==> r.Reject?
    ensures r.Keep? && StartsWith(l2, "||") ==> r.line == "|" + l2[2..]
    ensures r.Keep? && !StartsWith(l2, "||") ==> r.line == l2
    ensures r.Keep? && StartsWith(l2, "||") && StartsWithCI(LStrip(l2[2..]), "merge ") ==> r.inMerge
  {
    PipedNotKeyword(l2);
    // `|| endmerge` counts as `endmerge`, and then never as `endbranch`
    var forced := StartsWith(l2, "||") && Lower(Strip(l2[2..])) == "endmerge";
    var control := Lower(Control(l2));
    var inMerge' := if (forced || control == "endmerge") && inMerge then false else inMerge;
    if !forced && control == "endbranch" then Close
    else
      var inMerge'' := if StartsWith(l2, "||") && StartsWithCI(LStrip(l2[2..]), "merge ") then true else inMerge';
      if StartsWith(l2, "|") && !StartsWith(l2, "||") && !inMerge'' then Reject(SinglePipeInBranch)
      else Keep(if StartsWith(l2, "||") then "|" + l2[2..] else l2, inMerge'')
  }

  /** The line loop of one spawn branch, up to its `endbranch`. */
  function BranchLines(lines: seq<string>, i: nat, acc: seq<string>, inMerge: bool): (r: Result<(seq<string>, int)>)
    ensures r.Ok? ==> i <= r.value.1 && |r.value.0| <= |acc| + Remaining(lines, i)
    ensures r.Ok? && i <= |lines| ==> r.value.1 <= |lines|
    ensures r.Ok? ==> acc <= r.value.0
    ensures i >= |lines| ==> r == Ok((acc, i))
    ensures i < |lines| && BranchLine(lines[i], inMerge).Close? ==> r == Ok((acc, i + 1))
    ensures i < |lines| && BranchLine(lines[i], inMerge).Reject? ==> r == Err(BranchLine(lines[i], inMerge).msg)
    ensures r.Ok? && i < |lines| && BranchLine(lines[i], inMerge).Keep? ==>
              |acc| < |r.value.0| && r.value.0[|acc|] == BranchLine(lines[i], inMerge).line
    decreases Remaining(lines, i)
  {
    if i >= |lines| then Ok((acc, i))
    else
      match BranchLine(lines[i], inMerge)
      case Close => Ok((acc, i + 1))
      case Reject(msg) => Err(msg)
      case Keep(line, inMerge') => BranchLines(lines, i + 1, acc + [line], inMerge')
  }

  /** The branch that starts at the `branch` line `i`, parsed as a query of its own. */
  function BranchQuery(codec: Codec, lines: seq<string>, i: nat): (r: Result<(Query, int)>)
    requires i < |lines|
    ensures r.Ok? ==> i < r.value.1 <= |lines| && WellFormedQuery(r.value.0)
    ensures BranchLines(lines, i + 1, [], false).Err? ==> r.Err?
    ensures BranchLines(lines, i + 1, [], false).Ok? && BranchLines(lines, i + 1, [], false).value.0 == [] ==> r == Err(EmptyBranch)
    ensures r.Ok? ==> BranchLines(lines, i + 1, [], false).Ok? && r.value.1 == BranchLines(lines, i + 1, [], false).value.1
    decreases Remaining(lines, i), 0, 0
  {
    var bl :- BranchLines(lines, i + 1, [], false);
    if bl.0 == [] then Err(EmptyBranch)
    else
      var bq :- ParseLines(codec, bl.0);
      Ok((bq, bl.1))
  }

  /** A `branch` line of a spawn block. */
  predicate IsBranchLine(line: string) {
    Lower(Control(line)) == "branch"
  }

  /** The line that closes a spawn block: its control text, or the line itself, starts with `endspawn`. */
  predicate IsEndSpawnLine(line: string) {
    StartsWithCI(Control(line), "endspawn") || StartsWithCI(line, "| endspawn")
  }

  /** The branch loop of `_parse_spawn_block`, from line `i` of a block that starts at `s`. */
  function SpawnFrom(codec: Codec, lines: seq<string>, s: nat, i: nat, queries: seq<Query>): (r: Result<(seq<Query>, int)>)
    requires s <= i
    ensures r.Ok? ==> i < r.value.1
    ensures r.Ok? && i <= |lines| ==> r.value.1 <= |lines|
    ensures i >= |lines| ==> r == Err(MissingEndspawn)
    ensures i < |lines| && !IsBranchLine(lines[i]) && !IsEndSpawnLine(lines[i]) ==> r == Err(UnexpectedInSpawn + lines[i])
    ensures i < |lines| && !IsBranchLine(lines[i]) && IsEndSpawnLine(lines[i]) ==> r == Ok((queries, i + 1))
    ensures i < |lines| && IsBranchLine(lines[i]) && BranchQuery(codec, lines, i).Err? ==> r == Err(BranchQuery(codec, lines, i).msg)
    ensures r.Ok? ==> queries <= r.value.0
    ensures r.Ok? && i < |lines| && IsBranchLine(lines[i]) ==>
              BranchQuery(codec, lines, i).Ok? && |queries| < |r.value.0| && r.value.0[|queries|] == BranchQuery(codec, lines, i).value.0
    decreases Remaining(lines, s) + 1, 0, Remaining(lines, i)
  {
    if i >= |lines| then Err(MissingEndspawn)
    else
      if IsBranchLine(lines[i]) then
        var bq :- BranchQuery(codec, lines, i);
        SpawnFrom(codec, lines, s, bq.1, queries + [bq.0])
      else if IsEndSpawnLine(lines[i]) then Ok((queries, i + 1))
      else Err(UnexpectedInSpawn + lines[i])
  }

  /** `_parse_spawn_block` */
  function SpawnBlock(codec: Codec, lines: seq<string>, s: nat): (r: Result<(seq<Query>, int)>)
    ensures r.Ok? ==> s < r.value.1
    ensures r.Ok? && s <= |lines| ==> r.value.1 <= |lines|
    ensures s >= |lines| ==> r == Err(MissingEndspawn)
    ensures s < |lines| && !IsBranchLine(lines[s]) && !IsEndSpawnLine(lines[s]) ==> r == Err(UnexpectedInSpawn + lines[s])
    ensures s < |lines| && !IsBranchLine(lines[s]) && IsEndSpawnLine(lines[s]) ==> r == Ok(([], s + 1))
    ensures s < |lines| && IsBranchLine(lines[s]) && BranchQuery(codec, lines, s).Err? ==> r == Err(BranchQuery(codec, lines, s).msg)
    decreases Remaining(lines, s) + 1, 1, 0
  {
    SpawnFrom(codec, lines, s, s, [])
  }

  // ---------------------------------------------------------------------------
  // multi-line raw JSON

  /** `_parse_raw_json_object_multiline`: continuation lines are added until the braces balance. */
  function RawFrom(codec: Codec, buf: seq<string>, lines: seq<string>, i: nat): (r: Result<(Dict<Json>, int)>)
    ensures r.Ok? ==> i <= r.value.1
    ensures r.Ok? && i <= |lines| ==> r.value.1 <= |lines|
    ensures i >= |lines| || PipeRest(lines[i]).Some? ==>
              (r.Ok? <==> RawJsonObject(codec, Strip(Strings.Join(buf, "\n"))).Ok?)
              && (r.Ok? ==> r.value == (RawJsonObject(codec, Strip(Strings.Join(buf, "\n"))).value, i))
    decreases Remaining(lines, i)
  {
    var candidate := Strip(Strings.Join(buf, "\n"));
    if candidate != [] && !Balanced(candidate) && i < |lines| && PipeRest(lines[i]).None? then
      RawFrom(codec, buf + [lines[i]], lines, i + 1)
    else
      var obj :- RawJsonObject(codec, candidate);
      Ok((obj, i))
  }

  /** The text a multi-line raw stage has gathered once lines `i..k` are added to `buf`. */
  function RawCandidate(buf: seq<string>, lines: seq<string>, i: nat, k: nat): string
    requires i <= k <= |lines|
  {
    Strip(Strings.Join(buf + lines[i..k], "\n"))
  }

  /** The gathering goes on at line `k`: the text so far is a non-empty, unbalanced object and line `k` is not a stage. */
  predicate RawContinues(buf: seq<string>, lines: seq<string>, i: nat, k: nat)
    requires i <= k <= |lines|
  {
    var c := RawCandidate(buf, lines, i, k);
    c != [] && !Balanced(c) && k < |lines| && PipeRest(lines[k]).None?
  }

  /**
   * The gathering stops at line `k`: it goes on at every line before `k` and not at `k`,
   * so `k` is the first line at which the braces balance, a `|` line starts, or the lines run out.
   */
  predicate RawStopsAt(buf: seq<string>, lines: seq<string>, i: nat, k: nat)
    requires i <= |lines|
  {
    i <= k <= |lines| && !RawContinues(buf, lines, i, k)
    && forall j :: i <= j < k ==> RawContinues(buf, lines, i, j)
  }

  /** The first stopping line at or after `k`, when the gathering went on at every line before `k`. */
  function {:induction false} RawStop(buf: seq<string>, lines: seq<string>, i: nat, k: nat): (e: nat)
    requires i <= k <= |lines|
    requires forall j :: i <= j < k ==> RawContinues(buf, lines, i, j)
    ensures RawStopsAt(buf, lines, i, e) && k <= e
    decreases |lines| - k
  {
    if RawContinues(buf, lines, i, k) then RawStop(buf, lines, i, k + 1) else k
  }

  /** There is one stopping line. */
  lemma RawStopUnique(buf: seq<string>, lines: seq<string>, i: nat, k1: nat, k2: nat)
    requires i <= |lines|
    requires RawStopsAt(buf, lines, i, k1) && RawStopsAt(buf, lines, i, k2)
    ensures k1 == k2
  {
  }

  /** The object a raw stage holds once the gathering stopped at line `k`, and the line after the stage. */
  function RawResult(codec: Codec, buf: seq<string>, lines: seq<string>, i: nat, k: nat): Result<(Dict<Json>, int)>
    requires i <= k <= |lines|
  {
    var obj :- RawJsonObject(codec, RawCandidate(buf, lines, i, k));
    Ok((obj, k))
  }

  /** Moving line `i` into the buffer leaves every candidate text unchanged. */
  lemma RawShift(buf: seq<string>, lines: seq<string>, i: nat, k: nat)
    requires i < k <= |lines|
    ensures RawCandidate(buf + [lines[i]], lines, i + 1, k) == RawCandidate(buf, lines, i, k)
  {
    assert buf + [lines[i]] + lines[i + 1..k] == buf + lines[i..k];
  }

  /**
   * `_parse_raw_json_object_multiline` gathers up to the first stopping line, which it does
   * not consume, and parses what it gathered.
   */
  lemma {:induction false} RawFromStopsAt(codec: Codec, buf: seq<string>, lines: seq<string>, i: nat, k: nat)
    requires i <= |lines| && RawStopsAt(buf, lines, i, k)
    ensures RawFrom(codec, buf, lines, i) == RawResult(codec, buf, lines, i, k)
    decreases |lines| - i
  {
    assert buf + lines[i..i] == buf;
    if RawContinues(buf, lines, i, i) {
      assert i < k;
      var buf' := buf + [lines[i]];
      var i' := i + 1;
      forall j | i' <= j <= k
        ensures RawCandidate(buf', lines, i', j) == RawCandidate(buf, lines, i, j)
      {
        RawShift(buf, lines, i, j);
      }
      forall j | i' <= j < k ensures RawContinues(buf', lines, i', j) {
        assert RawContinues(buf, lines, i, j);
      }
      assert RawStopsAt(buf', lines, i', k);
      RawFromStopsAt(codec, buf', lines, i + 1, k);
    }
  }

  /** A `|` line ends the gathering before it, unbalanced or not. */
  lemma RawStopsAtStage(buf: seq<string>, lines: seq<string>, i: nat, k: nat)
    requires i <= k < |lines| && PipeRest(lines[k]).Some?
    requires forall j :: i <= j < k ==> RawContinues(buf, lines, i, j)
    ensures RawStopsAt(buf, lines, i, k)
  {
  }

  // ---------------------------------------------------------------------------
  // what the block readers hand back

  /** The stage loop's dispatch on the stage text: spawn, merge, raw and bulkExpand blocks, or one line. */
  lemma StageAtDispatch(codec: Codec, lines: seq<string>, idx: nat, text: string)
    requires idx < |lines|
    ensures var r := StageAt(codec, lines, idx, text);
      var sb := SpawnBlock(codec, lines, idx + 1);
      IsSpawnStart(text) ==> (r.Ok? <==> sb.Ok?) && (r.Ok? ==> r.value == (Spawn(sb.value.0), sb.value.1))
    ensures !IsSpawnStart(text) && IsMergeStart(text) ==> StageAt(codec, lines, idx, text) == MergeStage(codec, lines, idx, text)
    ensures !IsSpawnStart(text) && !IsMergeStart(text) && IsRawStart(text) ==>
      var r := StageAt(codec, lines, idx, text);
      var rb := RawFrom(codec, [Strip(text[4..])], lines, idx + 1);
      (r.Ok? <==> rb.Ok?) && (r.Ok? ==> r.value == (Raw(rb.value.0), rb.value.1))
    ensures !IsSpawnStart(text) && !IsMergeStart(text) && !IsRawStart(text) && IsBulkExpandStart(text) ==>
      var r := StageAt(codec, lines, idx, text);
      var rb := RawFrom(codec, [Strip(text[11..])], lines, idx + 1);
      (r.Ok? <==> rb.Ok?) && (r.Ok? ==> r.value == (BulkExpand(rb.value.0), rb.value.1))
    ensures var r := StageAt(codec, lines, idx, text);
      !IsSpawnStart(text) && !IsMergeStart(text) && !IsRawStart(text) && !IsBulkExpandStart(text) ==>
        (r.Ok? <==> ParseStage(codec, text).Ok?) && (r.Ok? ==> r.value == (ParseStage(codec, text).value, idx + 1))
  {
  }

  /** A merge block's query is its gathered lines parsed as a query of their own. */
  lemma MergeBlockParts(codec: Codec, lines: seq<string>, s: nat)
    ensures var r := MergeBlock(codec, lines, s);
      r.Ok? ==> MergeLines(lines, s, []).Ok? && MergeLines(lines, s, []).value.0 != []
                && ParseLines(codec, MergeLines(lines, s, []).value.0) == Ok(r.value.0)
  {
  }

  /** A branch's query is its gathered lines parsed as a query of their own. */
  lemma BranchQueryParts(codec: Codec, lines: seq<string>, i: nat)
    requires i < |lines|
    ensures var r := BranchQuery(codec, lines, i);
      r.Ok? ==> BranchLines(lines, i + 1, [], false).Ok? && BranchLines(lines, i + 1, [], false).value.0 != []
                && ParseLines(codec, BranchLines(lines, i + 1, [], false).value.0) == Ok(r.value.0)
  {
  }

  // ---------------------------------------------------------------------------
  // re-entering `parse`

  /** `parse("\n".join(ls))` on lines that are already clean is `ParseLines` of those lines. */
  lemma ParseTextOfLines(codec: Codec, ls: seq<string>)
    requires |ls| >= 1
    requires forall l :: l in ls ==> CleanLine(l)
    ensures ParseText(codec, Strings.Join(ls, "\n")) == ParseLines(codec, ls)
  {
    ReparseJoinedLines(ls);
  }

  /** Every line `ParseText` hands to `ParseLines` is clean. */
  lemma ParseTextLinesClean(dsl: string)
    ensures forall l :: l in CleanLines(SplitLines(dsl)) ==> CleanLine(l)
  {
    LinesFromNoBreak(dsl, []);
    CleanLinesAreClean(SplitLines(dsl));
  }

  /** A tail of a clean line has no line break and does not end in whitespace. */
  lemma CleanTail(l: string, k: nat)
    requires CleanLine(l) && k <= |l|
    ensures NoLineBreak(l[k..]) && (l[k..] == [] || !IsSpace(l[|l| - 1]))
  {
    assert forall i :: 0 <= i < |l[k..]| ==> l[k..][i] == l[k + i];
  }

  /** `"|" + t` is a clean line when `t` has no line break and no trailing whitespace. */
  lemma PipedClean(t: string)
    requires NoLineBreak(t) && (t == [] || !IsSpace(t[|t| - 1]))
    ensures CleanLine("|" + t)
  {
    assert forall i :: 1 <= i < |"|" + t| ==> ("|" + t)[i] == t[i - 1];
  }

  /** A merge block keeps clean lines clean, including the `>>` lines it rewrites. */
  lemma MergeLineClean(line: string)
    requires CleanLine(line)
    ensures MergeLine(line).Keep? ==> CleanLine(MergeLine(line).line)
  {
    if Lower(Control(line)) != "endmerge" && StartsWith(line, ">>") {
      var x := line[2..];
      LStripIsSuffix(x);
      CleanTail(line, |line| - |LStrip(x)|);
      assert LStrip(x) == line[|line| - |LStrip(x)|..];
      PipedClean(LStrip(x));
    }
  }

  /** A spawn branch keeps clean lines clean, including the `||` lines it rewrites. */
  lemma BranchLineClean(l2: string, inMerge: bool)
    requires CleanLine(l2)
    ensures BranchLine(l2, inMerge).Keep? ==> CleanLine(BranchLine(l2, inMerge).line)
  {
    if StartsWith(l2, "||") {
      CleanTail(l2, 2);
      PipedClean(l2[2..]);
    }
  }

  lemma {:induction false} MergeLinesClean(lines: seq<string>, i: nat, inner: seq<string>)
    requires forall l :: l in lines ==> CleanLine(l)
    requires forall l :: l in inner ==> CleanLine(l)
    ensures MergeLines(lines, i, inner).Ok? ==> forall l :: l in MergeLines(lines, i, inner).value.0 ==> CleanLine(l)
    decreases Remaining(lines, i)
  {
    if i < |lines| {
      assert lines[i] in lines;
      MergeLineClean(lines[i]);
      match MergeLine(lines[i])
      case Keep(line, _) => MergeLinesClean(lines, i + 1, inner + [line]);
      case _ =>
    }
  }

  lemma {:induction false} BranchLinesClean(lines: seq<string>, i: nat, acc: seq<string>, inMerge: bool)
    requires forall l :: l in lines ==> CleanLine(l)
    requires forall l :: l in acc ==> CleanLine(l)
    ensures BranchLines(lines, i, acc, inMerge).Ok? ==> forall l :: l in BranchLines(lines, i, acc, inMerge).value.0 ==> CleanLine(l)
    decreases Remaining(lines, i)
  {
    if i < |lines| {
      assert lines[i] in lines;
      BranchLineClean(lines[i], inMerge);
      match BranchLine(lines[i], inMerge)
      case Keep(line, inMerge') => BranchLinesClean(lines, i + 1, acc + [line], inMerge');
      case _ =>
    }
  }

  /** `_parse_merge_block` as written: the collected lines are joined and parsed again as text. */
  function MergeBlockText(codec: Codec, lines: seq<string>, s: nat): Result<(Query, int)> {
    var ml :- MergeLines(lines, s, []);
    if ml.0 == [] then Err(EmptyMergeBlock)
    else
      var mq :- ParseText(codec, Strings.Join(ml.0, "\n"));
      Ok((mq, ml.1))
  }

  /** On clean lines, parsing the joined block text is parsing the block's lines. */
  lemma MergeBlockReparse(codec: Codec, lines: seq<string>, s: nat)
    requires forall l :: l in lines ==> CleanLine(l)
    ensures MergeBlockText(codec, lines, s) == MergeBlock(codec, lines, s)
  {
    MergeLinesClean(lines, s, []);
    var ml := MergeLines(lines, s, []);
    if ml.Ok? && ml.value.0 != [] {
      ParseTextOfLines(codec, ml.value.0);
    }
  }

  /** One spawn branch as written: its lines are joined and parsed again as text. */
  function BranchQueryText(codec: Codec, lines: seq<string>, i: nat): Result<(Query, int)> {
    var bl :- BranchLines(lines, i + 1, [], false);
    if bl.0 == [] then Err(EmptyBranch)
    else
      var bq :- ParseText(codec, Strings.Join(bl.0, "\n"));
      Ok((bq, bl.1))
  }

  /** On clean lines, parsing the joined branch text is parsing the branch's lines. */
  lemma BranchQueryReparse(codec: Codec, lines: seq<string>, i: nat)
    requires i < |lines|
    requires forall l :: l in lines ==> CleanLine(l)
    ensures BranchQueryText(codec, lines, i) == BranchQuery(codec, lines, i)
  {
    BranchLinesClean(lines, i + 1, [], false);
    var bl := BranchLines(lines, i + 1, [], false);
    if bl.Ok? && bl.value.0 != [] {
      ParseTextOfLines(codec, bl.value.0);
    }
  }

  // ---------------------------------------------------------------------------
  // the loops, as the source runs them

  /** `parse` */
  method Parse(codec: Codec, dsl: string) returns (r: Result<Query>)
    ensures r == ParseText(codec, dsl)
  {
    r := ParseLinesImpl(codec, CleanLines(SplitLines(dsl)));
  }

  /** The body of `parse` once the lines are cleaned: the header loop, the source lines and the stage loop. */
  method ParseLinesImpl(codec: Codec, lines: seq<string>) returns (r: Result<Query>)
    ensures r == ParseLines(codec, lines)
    decreases |lines|, 3
  {
    if lines == [] {
      return Err(EmptyDsl);
    }
    ParseLinesHeaders(codec, lines);
    var mime := DefaultMimeType;
    var name: Option<string> := None;
    var idx: nat := 0;
    while idx < |lines|
      invariant idx <= |lines|
      invariant Headers(lines, idx, mime, name) == Headers(lines, 0, DefaultMimeType, None)
      decreases |lines| - idx
    {
      var rm := ResponseRest(lines[idx]);
      if rm.Some? {
        var kv := SplitKvPairs(rm.value);
        if kv.Err? {
          return Err(kv.msg);
        }
        HeaderResponseStep(lines, idx, mime, name, kv.value);
        if Get(kv.value, "mimeType").Some? {
          mime := ScalarText(Get(kv.value, "mimeType").value);
        }
        idx := idx + 1;
        continue;
      }
      var rq := RequestRest(lines[idx]);
      if rq.Some? {
        var kv := SplitKvPairs(rq.value);
        if kv.Err? {
          return Err(kv.msg);
        }
        HeaderRequestStep(lines, idx, mime, name, kv.value);
        if Get(kv.value, "name").Some? {
          name := Some(ScalarText(Get(kv.value, "name").value));
        }
        idx := idx + 1;
        continue;
      }
      break;
    }
    assert Headers(lines, idx, mime, name) == Ok(Header(idx, mime, name));
    r := SourceImpl(codec, lines, idx, mime, name);
  }

  /** The FROM line, with `_parse_bracket_args` run as a loop. */
  method ParseFromLine(line: string) returns (r: Result<EventSource>)
    ensures r == FromLine(line)
  {
    var m := FromArgs(line);
    if m.None? {
      return Err(ExpectedSource);
    }
    var args := ParseBracketArgs(m.value);
    if args.Err? {
      return Err(args.msg);
    }
    var src := Get(args.value, "source");
    if src.None? {
      return Err(SourceRequired);
    }
    r := Ok(EventSource(ScalarText(src.value), Remove(args.value, "source")));
  }

  /** The TIMESERIES line, with `_split_kv_pairs` run as a loop. */
  method ParseTimeSeriesLine(text: string) returns (r: Result<TimeSeries>)
    ensures r == TimeSeriesLine(text)
  {
    var kv := SplitKvPairs(text);
    if kv.Err? {
      return Err(kv.msg);
    }
    r := TimeSeriesOf(kv.value);
  }

  /** The opening lines, with `_parse_bracket_args` and `_split_kv_pairs` run as loops. */
  method ParseOpening(lines: seq<string>, idx: nat, mime: string, name: Option<string>) returns (r: Result<(Query, int)>)
    requires idx < |lines|
    ensures r == Opening(lines, idx, mime, name)
  {
    if IsPipelineLine(lines[idx]) {
      return Ok((Query(None, None, [], mime, name), idx + 1));
    }
    var es := ParseFromLine(lines[idx]);
    if es.Err? {
      return Err(es.msg);
    }
    if idx + 1 < |lines| && TimeseriesRest(lines[idx + 1]).Some? {
      var ts := ParseTimeSeriesLine(TimeseriesRest(lines[idx + 1]).value);
      if ts.Err? {
        return Err(ts.msg);
      }
      r := Ok((Query(Some(es.value), Some(ts.value), [], mime, name), idx + 2));
    } else {
      r := Ok((Query(Some(es.value), None, [], mime, name), idx + 1));
    }
  }

  /** The opening lines of `parse`, followed by its stage loop. */
  method SourceImpl(codec: Codec, lines: seq<string>, idx: nat, mime: string, name: Option<string>) returns (r: Result<Query>)
    ensures r == SourceAt(codec, lines, idx, mime, name)
    decreases |lines|, 2
  {
    if idx >= |lines| {
      return Err(MissingSource);
    }
    var opening := ParseOpening(lines, idx, mime, name);
    if opening.Err? {
      return Err(opening.msg);
    }
    r := StagesImpl(codec, lines, opening.value.1, opening.value.0);
  }

  /** The stage loop of `parse`. */
  method StagesImpl(codec: Codec, lines: seq<string>, idx0: nat, q0: Query) returns (r: Result<Query>)
    requires 1 <= idx0 && WellFormedQuery(q0)
    ensures r == StagesFrom(codec, lines, idx0, q0)
    decreases Remaining(lines, idx0), 3
  {
    var idx := idx0;
    var q := q0;
    while idx < |lines|
      invariant idx0 <= idx && WellFormedQuery(q)
      invariant StagesFrom(codec, lines, idx, q) == StagesFrom(codec, lines, idx0, q0)
      decreases |lines| - idx
    {
      var pm := PipeRest(lines[idx]);
      if pm.None? {
        return Err(ExpectedStage + lines[idx]);
      }
      var sn := StageAtImpl(codec, lines, idx, Strip(pm.value));
      if sn.Err? {
        return Err(sn.msg);
      }
      q := q.(stages := q.stages + [sn.value.0]);
      idx := sn.value.1;
    }
    r := Ok(q);
  }

  /** One pass of the stage loop: the block stages run their block parsers, every other stage `_parse_stage`. */
  method StageAtImpl(codec: Codec, lines: seq<string>, idx: nat, text: string) returns (r: Result<(Stage, int)>)
    requires idx < |lines|
    ensures r == StageAt(codec, lines, idx, text)
    decreases Remaining(lines, idx), 2
  {
    if IsSpawnStart(text) {
      var sb := SpawnBlockImpl(codec, lines, idx + 1);
      if sb.Err? {
        return Err(sb.msg);
      }
      return Ok((Spawn(sb.value.0), sb.value.1));
    }
    if IsMergeStart(text) {
      r := MergeStageImpl(codec, lines, idx, text);
      return;
    }
    if IsRawStart(text) {
      var rb := RawMultiline(codec, Strip(text[4..]), lines, idx + 1);
      if rb.Err? {
        return Err(rb.msg);
      }
      return Ok((Raw(rb.value.0), rb.value.1));
    }
    if IsBulkExpandStart(text) {
      var rb := RawMultiline(codec, Strip(text[11..]), lines, idx + 1);
      if rb.Err? {
        return Err(rb.msg);
      }
      return Ok((BulkExpand(rb.value.0), rb.value.1));
    }
    var st := ParseStageLine(codec, text);
    if st.Err? {
      return Err(st.msg);
    }
    r := Ok((st.value, idx + 1));
  }

  /** The merge branch of the stage loop: `_parse_merge_header`, then `_parse_merge_block`. */
  method MergeStageImpl(codec: Codec, lines: seq<string>, idx: nat, text: string) returns (r: Result<(Stage, int)>)
    requires idx < |lines|
    ensures r == MergeStage(codec, lines, idx, text)
    decreases Remaining(lines, idx), 1
  {
    var header := MergeHeaderStage(text);
    if header.Err? {
      return Err(header.msg);
    }
    var mb := MergeBlockImpl(codec, lines, idx + 1);
    if mb.Err? {
      return Err(mb.msg);
    }
    r := Ok((header.value.(query := Some(mb.value.0)), mb.value.1));
  }

  /** The line loop of `_parse_merge_block`. */
  method MergeLinesImpl(lines: seq<string>, s: nat) returns (r: Result<(seq<string>, int)>)
    ensures r == MergeLines(lines, s, [])
  {
    var inner: seq<string> := [];
    var i := s;
    while i < |lines|
      invariant s <= i
      invariant MergeLines(lines, i, inner) == MergeLines(lines, s, [])
      decreases |lines| - i
    {
      match MergeLine(lines[i]) {
        case Close =>
          return Ok((inner, i + 1));
        case Reject(msg) =>
          return Err(msg);
        case Keep(line, _) =>
          inner := inner + [line];
          i := i + 1;
      }
    }
    r := Ok((inner, i));
  }

  /** `_parse_merge_block` */
  method MergeBlockImpl(codec: Codec, lines: seq<string>, s: nat) returns (r: Result<(Query, int)>)
    ensures r == MergeBlock(codec, lines, s)
    decreases Remaining(lines, s) + 1, 0
  {
    var ml := MergeLinesImpl(lines, s);
    if ml.Err? {
      return Err(ml.msg);
    }
    if ml.value.0 == [] {
      return Err(EmptyMergeBlock);
    }
    var mq := ParseLinesImpl(codec, ml.value.0);
    if mq.Err? {
      return Err(mq.msg);
    }
    r := Ok((mq.value, ml.value.1));
  }

  /** `_parse_spawn_block` */
  method SpawnBlockImpl(codec: Codec, lines: seq<string>, s: nat) returns (r: Result<(seq<Query>, int)>)
    ensures r == SpawnBlock(codec, lines, s)
    decreases Remaining(lines, s) + 1, 0
  {
    var queries: seq<Query> := [];
    var i := s;
    while i < |lines|
      invariant s <= i
      invariant SpawnFrom(codec, lines, s, i, queries) == SpawnBlock(codec, lines, s)
      decreases |lines| - i
    {
      if IsBranchLine(lines[i]) {
        var bl := BranchLinesImpl(lines, i + 1);
        if bl.Err? {
          return Err(bl.msg);
        }
        if bl.value.0 == [] {
          return Err(EmptyBranch);
        }
        var bq := ParseLinesImpl(codec, bl.value.0);
        if bq.Err? {
          return Err(bq.msg);
        }
        assert BranchQuery(codec, lines, i) == Ok((bq.value, bl.value.1));
        assert SpawnFrom(codec, lines, s, i, queries) == SpawnFrom(codec, lines, s, bl.value.1, queries + [bq.value]);
        i := bl.value.1;
        queries := queries + [bq.value];
        continue;
      }
      if IsEndSpawnLine(lines[i]) {
        assert SpawnFrom(codec, lines, s, i, queries) == Ok((queries, i + 1));
        return Ok((queries, i + 1));
      }
      assert SpawnFrom(codec, lines, s, i, queries) == Err(UnexpectedInSpawn + lines[i]);
      return Err(UnexpectedInSpawn + lines[i]);
    }
    r := Err(MissingEndspawn);
  }

  /** The line loop of one spawn branch. */
  method BranchLinesImpl(lines: seq<string>, i0: nat) returns (r: Result<(seq<string>, int)>)
    ensures r == BranchLines(lines, i0, [], false)
  {
    var i := i0;
    var branch: seq<string> := [];
    var inMerge := false;
    while i < |lines|
      invariant i0 <= i
      invariant BranchLines(lines, i, branch, inMerge) == BranchLines(lines, i0, [], false)
      decreases |lines| - i
    {
      match BranchLine(lines[i], inMerge) {
        case Close =>
          return Ok((branch, i + 1));
        case Reject(msg) =>
          return Err(msg);
        case Keep(line, inMerge') =>
          branch := branch + [line];
          inMerge := inMerge';
          i := i + 1;
      }
    }
    r := Ok((branch, i));
  }

  /** `_parse_raw_json_object_multiline` */
  method RawMultiline(codec: Codec, first: string, lines: seq<string>, next: nat) returns (r: Result<(Dict<Json>, int)>)
    ensures r == RawFrom(codec, [first], lines, next)
  {
    var buf := [first];
    var i := next;
    var candidate := Strip(Strings.Join(buf, "\n"));
    while candidate != []
      invariant next <= i
      invariant candidate == Strip(Strings.Join(buf, "\n"))
      invariant RawFrom(codec, buf, lines, i) == RawFrom(codec, [first], lines, next)
      decreases Remaining(lines, i)
    {
      var balanced := BalancedJsonObject(candidate);
      if balanced || i >= |lines| || PipeRest(lines[i]).Some? {
        break;
      }
      buf := buf + [lines[i]];
      i := i + 1;
      candidate := Strip(Strings.Join(buf, "\n"));
    }
    var obj := RawJsonObject(codec, candidate);
    if obj.Err? {
      return Err(obj.msg);
    }
    r := Ok((obj.value, i));
  }
}
