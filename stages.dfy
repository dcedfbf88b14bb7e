/**
 * One pipeline stage line (`_parse_stage`), the merge header and the group
 * stage. Each parser is a function; the parts of `_parse_stage` that loop
 * (switch cases, the unwind coercion, the group assignments) are also methods
 * proved equal to those functions.
 */
module Stages {
  import opened Wrappers
  import opened Strings
  import opened JsonData
  import opened Ast
  import opened Scanners
  import opened Args
  import opened Patterns

  /** `[f.strip() for f in pieces if f.strip()]` */
  function StrippedPieces(pieces: seq<string>): (r: seq<string>)
    ensures forall f :: f in r ==> f != [] && Stripped(f)
    ensures |r| <= |pieces|
  {
    if pieces == [] then []
    else
      StripIsStripped(pieces[0]);
      var f := Strip(pieces[0]);
      if f == [] then StrippedPieces(pieces[1..]) else [f] + StrippedPieces(pieces[1..])
  }

  /** `[f.strip() for f in text.split(",") if f.strip()]` */
  function CommaFields(text: string): (r: seq<string>)
    ensures forall f :: f in r ==> f != [] && Stripped(f)
  {
    StrippedPieces(SplitOn(text, ','))
  }

  /** Pieces that are already stripped, non-empty and free of commas are all kept, unchanged. */
  lemma {:induction false} StrippedPiecesOfClean(pieces: seq<string>)
    requires forall f :: f in pieces ==> f != [] && Stripped(f)
    ensures StrippedPieces(pieces) == pieces
  {
    if pieces != [] {
      StrippedStrip(pieces[0]);
      assert forall f :: f in pieces[1..] ==> f in pieces;
      StrippedPiecesOfClean(pieces[1..]);
    }
  }

  /** Joining clean comma-free fields with `,` and splitting them again gives them back. */
  lemma CommaFieldsJoin(fs: seq<string>)
    requires forall f :: f in fs ==> f != [] && Stripped(f) && ',' !in f
    ensures CommaFields(Strings.Join(fs, ",")) == fs
  {
    if fs == [] {
      assert SplitOn([], ',') == [[]];
      assert Strip([]) == [];
    } else {
      SplitOnJoin(fs, ',');
      StrippedPiecesOfClean(fs);
    }
  }

  /** A brace map's values as JSON strings. */
  function StringsJson(d: Dict<string>): (r: Dict<Json>)
    ensures Keys(r) == Keys(d)
    ensures forall k :: Get(d, k).Some? ==> Get(r, k) == Some(JStr(Get(d, k).value))
  {
    if d == [] then [] else [(d[0].0, JStr(d[0].1))] + StringsJson(d[1..])
  }

  /** Key/value scalars as the JSON values the compiler emits for them. */
  function ScalarsJson(d: Dict<Scalar>): (r: Dict<Json>)
    ensures Keys(r) == Keys(d)
    ensures forall k :: Get(d, k).Some? ==> Get(r, k) == Some(ScalarJson(Get(d, k).value))
  {
    if d == [] then [] else [(d[0].0, ScalarJson(d[0].1))] + ScalarsJson(d[1..])
  }

  // ---------------------------------------------------------------------------
  // switch

  /** One case: `value == id`, each side read as a scalar and rendered with `str`. */
  function SwitchCaseOf(part: string): (r: Result<SwitchCase>)
    ensures r.Err? <==> CaseSplit(part).None?
  {
    match CaseSplit(part)
    case None => Err("Invalid switch case: " + part)
    case Some((v, id)) => Ok(SwitchCase(ScalarText(ParseScalar(v)), ScalarText(ParseScalar(id))))
  }

  /** The case loop, from the parts not yet seen; the first invalid part is the error. */
  function SwitchCasesFrom(parts: seq<string>, acc: seq<SwitchCase>): (r: Result<seq<SwitchCase>>)
    ensures r.Ok? ==> |r.value| == |acc| + |parts|
    ensures r.Ok? <==> forall i :: 0 <= i < |parts| ==> CaseSplit(parts[i]).Some?
    decreases |parts|
  {
    if parts == [] then Ok(acc)
    else
      match SwitchCaseOf(parts[0])
      case Err(e) => Err(e)
      case Ok(c) =>
        var r := SwitchCasesFrom(parts[1..], acc + [c]);
        assert forall i :: 1 <= i < |parts| ==> parts[i] == parts[1..][i - 1];
        r
  }

  /** The cases come out in the order of the parts, after those already collected. */
  lemma {:induction false} SwitchCasesFromElems(parts: seq<string>, acc: seq<SwitchCase>)
    ensures var r := SwitchCasesFrom(parts, acc);
            r.Ok? ==> r.value[..|acc|] == acc && forall j :: |acc| <= j < |r.value| ==> r.value[j] == SwitchCaseOf(parts[j - |acc|]).value
    decreases |parts|
  {
    var r := SwitchCasesFrom(parts, acc);
    if parts != [] && r.Ok? {
      SwitchCasesFromStep(parts, acc);
      var c := SwitchCaseOf(parts[0]).value;
      SwitchCasesFromElems(parts[1..], acc + [c]);
      var v := r.value;
      assert v[..|acc| + 1] == acc + [c];
      assert v[..|acc|] == acc by { assert v[..|acc|] == v[..|acc| + 1][..|acc|]; }
      forall j | |acc| <= j < |v| ensures v[j] == SwitchCaseOf(parts[j - |acc|]).value {
        if j == |acc| {
          assert v[|acc|] == v[..|acc| + 1][|acc|];
        } else {
          assert parts[j - |acc|] == parts[1..][j - |acc + [c]|];
        }
      }
    }
  }

  /** A loop that succeeds read its first part as a case and went on with the rest. */
  lemma SwitchCasesFromStep(parts: seq<string>, acc: seq<SwitchCase>)
    requires parts != [] && SwitchCasesFrom(parts, acc).Ok?
    ensures SwitchCaseOf(parts[0]).Ok?
    ensures SwitchCasesFrom(parts, acc) == SwitchCasesFrom(parts[1..], acc + [SwitchCaseOf(parts[0]).value])
  {
  }

  /** From no cases collected: the i-th case is the i-th part's case. */
  lemma SwitchCasesElems(parts: seq<string>)
    ensures var r := SwitchCasesFrom(parts, []);
            r.Ok? ==> |r.value| == |parts| && forall i :: 0 <= i < |parts| ==> r.value[i] == SwitchCaseOf(parts[i]).value
  {
    var none: seq<SwitchCase> := [];
    SwitchCasesFromElems(parts, none);
    var r := SwitchCasesFrom(parts, none);
    if r.Ok? {
      forall i | 0 <= i < |parts| ensures r.value[i] == SwitchCaseOf(parts[i]).value {
        assert parts[i - |none|] == parts[i];
      }
    }
  }

  /** The error of the case loop is the error of one of the parts. */
  lemma {:induction false} SwitchCasesFromError(parts: seq<string>, acc: seq<SwitchCase>)
    ensures var r := SwitchCasesFrom(parts, acc);
            r.Err? ==> exists i :: 0 <= i < |parts| && SwitchCaseOf(parts[i]) == Err(r.msg)
    decreases |parts|
  {
    var r := SwitchCasesFrom(parts, acc);
    if parts != [] && r.Err? && SwitchCaseOf(parts[0]).Ok? {
      var c := SwitchCaseOf(parts[0]).value;
      SwitchCasesFromError(parts[1..], acc + [c]);
      var i :| 0 <= i < |parts[1..]| && SwitchCaseOf(parts[1..][i]) == Err(r.msg);
      assert parts[1..][i] == parts[i + 1];
    }
  }

  method SwitchCases(parts: seq<string>) returns (r: Result<seq<SwitchCase>>)
    ensures r == SwitchCasesFrom(parts, [])
  {
    var cases: seq<SwitchCase> := [];
    var i := 0;
    while i < |parts|
      invariant 0 <= i <= |parts|
      invariant SwitchCasesFrom(parts[i..], cases) == SwitchCasesFrom(parts, [])
    {
      assert parts[i..][0] == parts[i] && parts[i..][1..] == parts[i + 1..];
      var m := CaseSplit(parts[i]);
      if m.None? {
        return Err("Invalid switch case: " + parts[i]);
      }
      var (v, id) := m.value;
      cases := cases + [SwitchCase(ScalarText(ParseScalar(v)), ScalarText(ParseScalar(id)))];
      i := i + 1;
    }
    assert parts[|parts|..] == [];
    r := Ok(cases);
  }

  // ---------------------------------------------------------------------------
  // unwind

  /** `true` / `false` in any case become booleans; everything else stays text. */
  function UnwindValue(v: string): (r: Json)
    ensures r.JBool? <==> Lower(v) == "true" || Lower(v) == "false"
    ensures r.JBool? ==> r.b == (Lower(v) == "true")
    ensures !r.JBool? ==> r == JStr(v)
  {
    if Lower(v) == "true" then JBool(true)
    else if Lower(v) == "false" then JBool(false)
    else JStr(v)
  }

  /** The coercion loop `coerced[k] = ...` over the parsed map. */
  function UnwindFold(items: Dict<string>, out: Dict<Json>): Dict<Json>
    decreases |items|
  {
    if items == [] then out else UnwindFold(items[1..], Put(out, items[0].0, UnwindValue(items[0].1)))
  }

  /** Every key of the map is coerced on its own: a lookup sees the coerced value of that key. */
  lemma {:induction false} UnwindFoldGet(items: Dict<string>, out: Dict<Json>, k: string)
    requires DistinctKeys(items)
    ensures Get(UnwindFold(items, out), k) ==
      (if Get(items, k).Some? then Some(UnwindValue(Get(items, k).value)) else Get(out, k))
    decreases |items|
  {
    if items != [] {
      assert DistinctKeys(items[1..]) by {
        forall i, j | 0 <= i < j < |items[1..]| ensures items[1..][i].0 != items[1..][j].0 {
          assert items[1..][i] == items[i + 1] && items[1..][j] == items[j + 1];
        }
      }
      UnwindFoldGet(items[1..], Put(out, items[0].0, UnwindValue(items[0].1)), k);
      if k == items[0].0 {
        assert k !in Keys(items[1..]) by {
          forall i | 0 <= i < |items[1..]| ensures Keys(items[1..])[i] != k {
            assert items[1..][i] == items[i + 1];
          }
        }
      }
    }
  }

  method CoerceUnwind(raw: Dict<string>) returns (coerced: Dict<Json>)
    ensures coerced == UnwindFold(raw, [])
  {
    coerced := [];
    var i := 0;
    while i < |raw|
      invariant 0 <= i <= |raw|
      invariant UnwindFold(raw[i..], coerced) == UnwindFold(raw, [])
    {
      assert raw[i..][0] == raw[i] && raw[i..][1..] == raw[i + 1..];
      var (k, v) := raw[i];
      if Lower(v) == "true" {
        coerced := Put(coerced, k, JBool(true));
      } else if Lower(v) == "false" {
        coerced := Put(coerced, k, JBool(false));
      } else {
        coerced := Put(coerced, k, JStr(v));
      }
      i := i + 1;
    }
    assert raw[|raw|..] == [];
  }

  // ---------------------------------------------------------------------------
  // segment

  /** `token[1:-1]` when the token is wrapped in double quotes. */
  function Unquote(token: string): string {
    if StartsWith(token, "\"") && EndsWith(token, "\"") && |token| >= 2 then token[1..|token| - 1] else token
  }

  /** `segment {...}`, `segment k=v ...` or `segment <id>`; the result must hold an `id`. */
  function ParseSegment(rest: string): (r: Result<Dict<Json>>)
    ensures r.Ok? ==> "id" in Keys(r.value)
    ensures rest == [] ==> r.Err?
  {
    if rest == [] then Err("segment syntax: | segment id=\"segmentId\"")
    else
      var seg :-
        if rest[0] == '{' then
          (match BraceMap(rest, "segment") case Ok(m) => Ok(StringsJson(m)) case Err(e) => Err(e))
        else if '=' in rest then
          (match KvPairs(rest) case Ok(m) => Ok(ScalarsJson(m)) case Err(e) => Err(e))
        else Ok([("id", JStr(Unquote(rest)))]);
      if "id" !in Keys(seg) then Err("segment requires id=..., e.g. | segment id=\"segmentId\"")
      else Ok(seg)
  }

  // ---------------------------------------------------------------------------
  // raw / bulkExpand

  const RawNotObject := "raw stage must be a JSON object: | raw { ... }"
  const InvalidRawJson := "Invalid JSON in raw stage: "
  const RawNotJsonObject := "raw stage JSON must be an object"

  /** `_parse_raw_json_object`: braces around the text, valid JSON, and an object. */
  function RawJsonObject(codec: Codec, text: string): (r: Result<Dict<Json>>)
    ensures r.Ok? <==> StartsWith(Strip(text), "{") && EndsWith(Strip(text), "}")
                       && codec.loads(Strip(text)).Ok? && codec.loads(Strip(text)).value.JObj?
    ensures r.Ok? ==> codec.loads(Strip(text)) == Ok(JObj(r.value))
    ensures !(StartsWith(Strip(text), "{") && EndsWith(Strip(text), "}")) ==> r == Err(RawNotObject)
    ensures StartsWith(Strip(text), "{") && EndsWith(Strip(text), "}") && codec.loads(Strip(text)).Err? ==>
              r == Err(InvalidRawJson + codec.loads(Strip(text)).msg)
    ensures (StartsWith(Strip(text), "{") && EndsWith(Strip(text), "}") && codec.loads(Strip(text)).Ok?
             && !codec.loads(Strip(text)).value.JObj?) ==> r == Err(RawNotJsonObject)
  {
    var s := Strip(text);
    if !(StartsWith(s, "{") && EndsWith(s, "}")) then Err(RawNotObject)
    else
      match codec.loads(s)
      case Err(e) => Err(InvalidRawJson + e)
      case Ok(JObj(fields)) => Ok(fields)
      case Ok(_) => Err(RawNotJsonObject)
  }

  // ---------------------------------------------------------------------------
  // group

  /** `alias=agg(arg)`, with `null` in any case read as no argument. */
  function GroupFieldOf(a: string): (r: Result<GroupField>)
    requires '=' in a
    ensures r.Ok? ==> r.value.agg != [] && IsIdentStart(r.value.agg[0])
    ensures r.Ok? && r.value.arg.Some? ==> Lower(r.value.arg.value) != "null"
  {
    var (alias, expr) := SplitFirst(a, '=');
    var e := Strip(expr);
    match AggExpr(e)
    case None => Err("Invalid aggregate expression: " + e)
    case Some((agg, arg)) =>
      var t := Strip(arg);
      Ok(GroupField(Strip(alias), agg, if Lower(t) == "null" then None else Some(t)))
  }

  /** The assignment loop of `_parse_group`: empty pieces are skipped, the others must assign. */
  function GroupFieldsFrom(items: seq<string>, acc: seq<GroupField>): (r: Result<seq<GroupField>>)
    ensures r.Ok? ==> |acc| <= |r.value| <= |acc| + |items|
    decreases |items|
  {
    if items == [] then Ok(acc)
    else if items[0] == [] then GroupFieldsFrom(items[1..], acc)
    else if '=' !in items[0] then Err("Invalid fields assignment: " + items[0])
    else
      match GroupFieldOf(items[0])
      case Err(e) => Err(e)
      case Ok(f) =>
        GroupFieldsFrom(items[1..], acc + [f])
  }

  method CollectGroupFields(items: seq<string>) returns (r: Result<seq<GroupField>>)
    ensures r == GroupFieldsFrom(items, [])
  {
    var fields: seq<GroupField> := [];
    var i := 0;
    while i < |items|
      invariant 0 <= i <= |items|
      invariant GroupFieldsFrom(items[i..], fields) == GroupFieldsFrom(items, [])
    {
      assert items[i..][0] == items[i] && items[i..][1..] == items[i + 1..];
      var a := items[i];
      if a != [] {
        if '=' !in a {
          assert GroupFieldsFrom(items[i..], fields) == Err("Invalid fields assignment: " + a);
          return Err("Invalid fields assignment: " + a);
        }
        var f := GroupFieldOf(a);
        if f.Err? {
          assert GroupFieldsFrom(items[i..], fields) == Err(f.msg);
          return Err(f.msg);
        }
        assert GroupFieldsFrom(items[i..], fields) == GroupFieldsFrom(items[i + 1..], fields + [f.value]);
        fields := fields + [f.value];
      } else {
        assert GroupFieldsFrom(items[i..], fields) == GroupFieldsFrom(items[i + 1..], fields);
      }
      i := i + 1;
    }
    assert items[|items|..] == [];
    r := Ok(fields);
  }

  /** An explicit `map` / `list` mode wins; otherwise `fieldsMap` and `field` mean map form. */
  function EmitMap(keyword: string, mode: Option<string>): bool {
    if mode == Some("map") then true
    else if mode == Some("list") then false
    else keyword == "fieldsmap" || keyword == "field"
  }

  /** `_parse_group` */
  function ParseGroup(text: string): (r: Result<GroupFields>)
    ensures GroupRegex(text).None? ==> r.Err?
    ensures r.Ok? ==> r.value.emitMap == EmitMap(GroupRegex(text).value.keyword, GroupRegex(text).value.mode)
    ensures r.Ok? ==> forall g :: g in r.value.group ==> g != [] && Stripped(g)
  {
    match GroupRegex(text)
    case None => Err("Group syntax: | group by field1,field2 fields { alias=sum(field) }")
    case Some(m) =>
      var ft := Strip(m.body);
      if ft == [] then Err("group fields {...} cannot be empty")
      else
        var fields :- GroupFieldsFrom(Assignments(ft), []);
        Ok(GroupFields(CommaFields(m.group), fields, EmitMap(m.keyword, m.mode)))
  }

  method ParseGroupStage(text: string) returns (r: Result<GroupFields>)
    ensures r == ParseGroup(text)
  {
    var m := GroupRegex(text);
    if m.None? {
      return Err("Group syntax: | group by field1,field2 fields { alias=sum(field) }");
    }
    var ft := Strip(m.value.body);
    if ft == [] {
      return Err("group fields {...} cannot be empty");
    }
    var items := SplitAssignments(ft);
    var fields := CollectGroupFields(items);
    if fields.Err? {
      return Err(fields.msg);
    }
    r := Ok(GroupFields(CommaFields(m.value.group), fields.value, EmitMap(m.value.keyword, m.value.mode)));
  }

  // ---------------------------------------------------------------------------
  // merge header

  /** `_parse_merge_header`: the merge fields and, when written, the mappings. */
  function ParseMergeHeader(text: string): (r: Result<(seq<string>, Option<Dict<string>>)>)
    ensures MergeHeaderMatch(text).None? ==> r.Err?
    ensures r.Ok? ==> r.value.0 != [] && forall f :: f in r.value.0 ==> f != [] && Stripped(f) && ']' !in f
    ensures r.Ok? ==> (r.value.1.Some? <==> MergeHeaderMatch(text).value.1.Some?)
  {
    match MergeHeaderMatch(text)
    case None => Err("merge syntax: | merge fields [field1,field2] (optional: mappings { out=in, ... })")
    case Some((ft, mt)) =>
      var fields := CommaFields(Strip(ft));
      StripKeeps(ft, ']');
      CommaFieldsKeep(Strip(ft), ']');
      if fields == [] then Err("merge fields [...] cannot be empty")
      else
        match mt
        case None => Ok((fields, None))
        case Some(t) =>
          var m :- BraceMap(Strip(t), "mappings");
          Ok((fields, Some(m)))
  }

  /** A character absent from the text is absent from every field cut out of it. */
  lemma CommaFieldsKeep(text: string, c: char)
    requires c !in text
    ensures forall f :: f in CommaFields(text) ==> c !in f
  {
    var pieces := SplitOn(text, ',');
    SplitOnKeeps(text, ',', c);
    StrippedPiecesKeep(pieces, c);
  }

  lemma {:induction false} StrippedPiecesKeep(pieces: seq<string>, c: char)
    requires forall p :: p in pieces ==> c !in p
    ensures forall f :: f in StrippedPieces(pieces) ==> c !in f
  {
    if pieces != [] {
      StripKeeps(pieces[0], c);
      StrippedPiecesKeep(pieces[1..], c);
    }
  }

  lemma SplitOnKeeps(text: string, sep: char, c: char)
    requires c !in text
    ensures forall p :: p in SplitOn(text, sep) ==> c !in p
  {
    JoinSplitOn(text, sep);
    forall p | p in SplitOn(text, sep) ensures c !in p {
      if c in p {
        JoinContains(SplitOn(text, sep), [sep], p, c);
      }
    }
  }

  /** Every piece of a join appears in the joined text. */
  lemma {:induction false} JoinContains(xs: seq<string>, sep: string, p: string, c: char)
    requires p in xs && c in p
    ensures c in Strings.Join(xs, sep)
  {
    if xs[0] == p {
      if |xs| == 1 {
        assert Strings.Join(xs, sep) == p;
      } else {
        assert Strings.Join(xs, sep) == p + sep + Strings.Join(xs[1..], sep);
      }
    } else {
      JoinContains(xs[1..], sep, p, c);
      assert Strings.Join(xs, sep) == xs[0] + sep + Strings.Join(xs[1..], sep);
    }
  }

  // ---------------------------------------------------------------------------
  // _parse_stage

  /** The stage keywords `_parse_stage` tests for with `startswith`, in its order. */
  predicate KnownStageStart(text: string) {
    StartsWithCI(text, "filter ") || StartsWithCI(text, "identified ") || StartsWithCI(text, "eval ")
    || StartsWithCI(text, "select ") || StartsWithCI(text, "join ") || SwitchMatch(text).Some?
    || StartsWithCI(text, "unmarshal ") || StartsWithCI(text, "unwind ") || StartsWithCI(text, "segment")
    || StartsWithCI(text, "bulkexpand ") || StartsWithCI(text, "raw ") || StartsWithCI(text, "limit ")
    || StartsWithCI(text, "sort ") || StartsWithCI(text, "group ")
  }

  /** `_parse_stage`: one single-line stage. */
  function ParseStage(codec: Codec, text: string): (r: Result<Stage>)
    ensures !KnownStageStart(text) ==> r.Err?
    ensures r.Ok? ==> !(r.value.Merge? || r.value.Spawn? || r.value.Fork? || r.value.SessionReplays? || r.value.Other?)
    ensures r.Ok? && r.value.Identified? ==> r.value.field != []
    ensures r.Ok? && r.value.Join? ==> r.value.fields != []
    ensures r.Ok? && r.value.Limit? ==> r.value.n >= 0
    ensures r.Ok? && r.value.Sort? ==> r.value.keys != [] && forall k :: k in r.value.keys ==> k != [] && Stripped(k)
    ensures r.Ok? && r.value.Segment? ==> "id" in Keys(r.value.spec)
  {
    if StartsWithCI(text, "filter ") then Ok(Filter(Strip(text[7..])))
    else if StartsWithCI(text, "identified ") then IdentifiedStage(Strip(text[11..]))
    else if StartsWithCI(text, "eval ") then
      var m :- BraceMap(Strip(text[5..]), "eval");
      Ok(Eval(m))
    else if StartsWithCI(text, "select ") then
      var m :- BraceMap(Strip(text[7..]), "select");
      Ok(Select(m))
    else if StartsWithCI(text, "join ") then JoinStage(Strip(text[5..]))
    else if SwitchMatch(text).Some? then SwitchStage(text)
    else if StartsWithCI(text, "unmarshal ") then
      var m :- BraceMap(Strip(text[10..]), "unmarshal");
      Ok(Unmarshal(m))
    else if StartsWithCI(text, "unwind ") then
      var m :- BraceMap(Strip(text[7..]), "unwind");
      Ok(Unwind(UnwindFold(m, [])))
    else if StartsWithCI(text, "segment") then
      var seg :- ParseSegment(Strip(text[7..]));
      Ok(Segment(seg))
    else if StartsWithCI(text, "bulkexpand ") then
      var obj :- RawJsonObject(codec, Strip(text[11..]));
      Ok(BulkExpand(obj))
    else if StartsWithCI(text, "raw ") then
      var obj :- RawJsonObject(codec, Strip(text[4..]));
      Ok(Raw(obj))
    else if StartsWithCI(text, "limit ") then LimitStage(Strip(text[6..]))
    else if StartsWithCI(text, "sort ") then SortStage(Strip(text[5..]))
    else if StartsWithCI(text, "group ") then
      var g :- ParseGroup(text);
      Ok(Group(g))
    else Err("Unknown stage: " + text)
  }

  /** `identified <field>`: the field must not be empty. */
  function IdentifiedStage(field: string): (r: Result<Stage>)
    ensures r.Ok? <==> field != []
    ensures r.Ok? ==> r == Ok(Identified(field))
  {
    if field == [] then Err("identified requires a field, e.g. | identified visitorId") else Ok(Identified(field))
  }

  /** `join fields [a, b]`: at least one field. */
  function JoinStage(rest: string): (r: Result<Stage>)
    ensures JoinFieldsMatch(rest).None? ==> r.Err?
    ensures r.Ok? ==> r.value.Join? && r.value.fields != []
  {
    match JoinFieldsMatch(rest)
    case None => Err("join syntax: | join fields [field1,field2]")
    case Some(inner) =>
      var fields := CommaFields(inner);
      if fields == [] then Err("join fields [...] cannot be empty") else Ok(Join(fields))
  }

  /** `switch out from field { value == id, ... }` */
  function SwitchStage(text: string): (r: Result<Stage>)
    requires SwitchMatch(text).Some?
    ensures r.Ok? ==> r.value.Switch?
  {
    var (out, field, body) := SwitchMatch(text).value;
    var cases :- SwitchCasesFrom(SplitByComma(Strip(body)), []);
    Ok(Switch(out, field, cases))
  }

  /** `limit N`: `N` must be a string of digits. */
  function LimitStage(n: string): (r: Result<Stage>)
    ensures r.Ok? <==> IsDigitString(n)
    ensures r.Ok? ==> r.value.Limit? && r.value.n >= 0
  {
    if !IsDigitString(n) then Err("limit must be an integer") else Ok(Limit(DigitsValue(n)))
  }

  /** `sort k1, k2`: at least one key. */
  function SortStage(rest: string): (r: Result<Stage>)
    ensures r.Ok? ==> r.value.Sort? && r.value.keys != [] && forall k :: k in r.value.keys ==> k != [] && Stripped(k)
  {
    var keys := CommaFields(rest);
    if keys == [] then Err("sort requires at least one key") else Ok(Sort(keys))
  }

  /** The switch branch of `_parse_stage`, running its comma and case loops. */
  method SwitchStageLine(text: string) returns (r: Result<Stage>)
    requires SwitchMatch(text).Some?
    ensures r == SwitchStage(text)
  {
    var (out, field, body) := SwitchMatch(text).value;
    var parts := SplitByCommaRespectingGroups(Strip(body));
    var cases := SwitchCases(parts);
    if cases.Err? {
      return Err(cases.msg);
    }
    r := Ok(Switch(out, field, cases.value));
  }

  /** `_parse_stage`, running the loops of the switch, unwind and group stages. */
  method ParseStageLine(codec: Codec, text: string) returns (r: Result<Stage>)
    ensures r == ParseStage(codec, text)
  {
    if StartsWithCI(text, "filter ") || StartsWithCI(text, "identified ") || StartsWithCI(text, "eval ")
      || StartsWithCI(text, "select ") || StartsWithCI(text, "join ")
    {
      return ParseStage(codec, text);
    }
    if SwitchMatch(text).Some? {
      r := SwitchStageLine(text);
      return;
    }
    if StartsWithCI(text, "unmarshal ") {
      return ParseStage(codec, text);
    }
    if StartsWithCI(text, "unwind ") {
      var m := ParseBraceMap(Strip(text[7..]), "unwind");
      if m.Err? {
        return Err(m.msg);
      }
      var coerced := CoerceUnwind(m.value);
      return Ok(Unwind(coerced));
    }
    if StartsWithCI(text, "segment") || StartsWithCI(text, "bulkexpand ") || StartsWithCI(text, "raw ")
      || StartsWithCI(text, "limit ") || StartsWithCI(text, "sort ")
    {
      return ParseStage(codec, text);
    }
    if StartsWithCI(text, "group ") {
      var g := ParseGroupStage(text);
      if g.Err? {
        return Err(g.msg);
      }
      return Ok(Group(g.value));
    }
    r := Err("Unknown stage: " + text);
  }

  // ---------------------------------------------------------------------------
  // Stage texts read back: the text the decompiler writes parses to the stage it came from

  /** `sort k1,k2`: the keys as written, a leading `+` or `-` included. */
  lemma SortStageText(ks: seq<string>)
    requires ks != []
    requires forall k :: k in ks ==> k != [] && Stripped(k) && ',' !in k
    ensures SortStage(Strings.Join(ks, ",")) == Ok(Sort(ks))
  {
    CommaFieldsJoin(ks);
  }

  /** `join fields [f1,f2]`: the fields as written. */
  lemma JoinStageText(fs: seq<string>)
    requires fs != []
    requires forall f :: f in fs ==> f != [] && Stripped(f) && ',' !in f
    ensures JoinStage("fields" + " " + ("[" + Strings.Join(fs, ",") + "]")) == Ok(Join(fs))
  {
    JoinFieldsMatchOf(Strings.Join(fs, ","));
    CommaFieldsJoin(fs);
  }

  /** `value==id`: each side read as a scalar and rendered back as text. */
  lemma SwitchCaseText(v: string, id: string)
    requires v != [] && Stripped(v) && '=' !in v
    requires id != [] && Stripped(id)
    ensures SwitchCaseOf(v + "==" + id) == Ok(SwitchCase(ScalarText(ParseScalar(v)), ScalarText(ParseScalar(id))))
  {
    CaseSplitOf(v, id);
  }

  /** `"a"=="b"`, the form the decompiler writes for plain strings: the texts between the quotes. */
  lemma SwitchCaseQuoted(a: string, b: string)
    requires '=' !in a
    ensures SwitchCaseOf("\"" + a + "\"" + "==" + ("\"" + b + "\"")) == Ok(SwitchCase(a, b))
  {
    var v := "\"" + a + "\"";
    var id := "\"" + b + "\"";
    assert v[|v| - 1] == '"' && v[1..|v| - 1] == a && Quoted(v);
    assert id[|id| - 1] == '"' && id[1..|id| - 1] == b && Quoted(id);
    assert '=' !in v by { assert v == ['"'] + a + ['"']; }
    SwitchCaseText(v, id);
  }

  /** Comma-separated pieces between a space on each side come back from the comma splitter. */
  lemma PaddedPieces(parts: seq<string>)
    requires forall p :: p in parts ==> GroupPiece(p)
    ensures SplitByComma(Strip(" " + Strings.Join(parts, ", ") + " ")) == parts
  {
    var j := Strings.Join(parts, ", ");
    StrippedJoin(parts, ", ");
    StripOfPadded(" ", j, " ");
    SplitByCommaJoin(parts);
  }

  /** A switch whose braces hold the comma-joined parts: one case per part, in order. */
  lemma SwitchStageOfBody(text: string, out: string, field: string, parts: seq<string>)
    requires forall p :: p in parts ==> GroupPiece(p) && CaseSplit(p).Some?
    requires SwitchMatch(text) == Some((out, field, " " + Strings.Join(parts, ", ") + " "))
    ensures SwitchStage(text).Ok?
    ensures SwitchStage(text).value.out == out && SwitchStage(text).value.field == field
    ensures |SwitchStage(text).value.cases| == |parts|
    ensures forall i :: 0 <= i < |parts| ==> SwitchStage(text).value.cases[i] == SwitchCaseOf(parts[i]).value
  {
    PaddedCases(parts);
    SwitchStageOfMatch(text);
  }

  /** A matched switch is its names and the cases read from the comma pieces of its stripped body. */
  lemma SwitchStageOfMatch(text: string)
    requires SwitchMatch(text).Some?
    ensures var m := SwitchMatch(text).value;
            var cs := SwitchCasesFrom(SplitByComma(Strip(m.2)), []);
            cs.Ok? ==> SwitchStage(text) == Ok(Switch(m.0, m.1, cs.value))
  {
  }

  /** The padded, comma-joined parts read back as one case per part, in order. */
  lemma PaddedCases(parts: seq<string>)
    requires forall p :: p in parts ==> GroupPiece(p) && CaseSplit(p).Some?
    ensures var cs := SwitchCasesFrom(SplitByComma(Strip(" " + Strings.Join(parts, ", ") + " ")), []);
            cs.Ok? && |cs.value| == |parts| && forall i :: 0 <= i < |parts| ==> cs.value[i] == SwitchCaseOf(parts[i]).value
  {
    PaddedPieces(parts);
    SwitchCasesOk(parts);
    SwitchCasesElems(parts);
  }

  /** Parts that all split as cases make the case loop succeed. */
  lemma SwitchCasesOk(parts: seq<string>)
    requires forall p :: p in parts ==> CaseSplit(p).Some?
    ensures SwitchCasesFrom(parts, []).Ok?
  {
    assert forall i :: 0 <= i < |parts| ==> parts[i] in parts;
  }

  /** `switch out from field { c1, c2 }`: the names as written and one case per comma piece, in order. */
  lemma SwitchStageText(out: string, field: string, parts: seq<string>)
    requires Ident(out, false) && Ident(field, true)
    requires forall p :: p in parts ==> GroupPiece(p) && CaseSplit(p).Some?
    ensures var text := "switch" + " " + (out + " " + ("from" + " " + (field + " " + ("{" + (" " + Strings.Join(parts, ", ") + " ") + "}"))));
            SwitchMatch(text).Some? && SwitchStage(text).Ok?
            && SwitchStage(text).value.out == out && SwitchStage(text).value.field == field
            && |SwitchStage(text).value.cases| == |parts|
            && forall i :: 0 <= i < |parts| ==> SwitchStage(text).value.cases[i] == SwitchCaseOf(parts[i]).value
  {
    var text := "switch" + " " + (out + " " + ("from" + " " + (field + " " + ("{" + (" " + Strings.Join(parts, ", ") + " ") + "}"))));
    SwitchMatchOf(out, field, " " + Strings.Join(parts, ", ") + " ");
    SwitchStageOfBody(text, out, field, parts);
  }

  /** The cases the decompiler writes for plain strings, `"a"=="b"`, one per pair. */
  function QuotedCaseTexts(cs: seq<(string, string)>): (r: seq<string>)
    ensures |r| == |cs| && forall i :: 0 <= i < |cs| ==> r[i] == "\"" + cs[i].0 + "\"" + "==" + ("\"" + cs[i].1 + "\"")
  {
    seq(|cs|, i requires 0 <= i < |cs| => "\"" + cs[i].0 + "\"" + "==" + ("\"" + cs[i].1 + "\""))
  }

  /** Text free of the characters a quoted case or value would need escaped. */
  predicate Unescaped(s: string) {
    forall i :: 0 <= i < |s| ==> s[i] != '"' && s[i] != '\\'
  }

  /** Every quoted case text is one comma piece and reads back as its pair. */
  lemma QuotedCasesRead(cs: seq<(string, string)>)
    requires forall c :: c in cs ==> Unescaped(c.0) && Unescaped(c.1) && '=' !in c.0
    ensures forall p :: p in QuotedCaseTexts(cs) ==> GroupPiece(p) && CaseSplit(p).Some?
    ensures forall i :: 0 <= i < |cs| ==> SwitchCaseOf(QuotedCaseTexts(cs)[i]) == Ok(SwitchCase(cs[i].0, cs[i].1))
  {
    var parts := QuotedCaseTexts(cs);
    forall i | 0 <= i < |cs| ensures GroupPiece(parts[i]) && SwitchCaseOf(parts[i]) == Ok(SwitchCase(cs[i].0, cs[i].1)) {
      assert cs[i] in cs;
      QuotedCaseIsPiece(cs[i].0, cs[i].1);
      SwitchCaseQuoted(cs[i].0, cs[i].1);
    }
  }

  /** `text` matches the switch pattern and reads as a switch from `field` into `out` with the cases `cs`, in order. */
  predicate SwitchReadsAs(text: string, out: string, field: string, cs: seq<(string, string)>) {
    SwitchMatch(text).Some? && SwitchStage(text).Ok?
    && SwitchStage(text).value.out == out && SwitchStage(text).value.field == field
    && |SwitchStage(text).value.cases| == |cs|
    && forall i :: 0 <= i < |cs| ==> SwitchStage(text).value.cases[i] == SwitchCase(cs[i].0, cs[i].1)
  }

  lemma SwitchStageQuoted(out: string, field: string, cs: seq<(string, string)>)
    requires Ident(out, false) && Ident(field, true)
    requires forall c :: c in cs ==> Unescaped(c.0) && Unescaped(c.1) && '=' !in c.0
    ensures SwitchReadsAs("switch" + " " + (out + " " + ("from" + " " + (field + " " + ("{" + (" " + Strings.Join(QuotedCaseTexts(cs), ", ") + " ") + "}")))), out, field, cs)
  {
    var parts := QuotedCaseTexts(cs);
    QuotedCasesRead(cs);
    SwitchStageText(out, field, parts);
  }

  /** `segment w` for a bare word: the word is the id. */
  lemma SegmentWordText(w: string)
    requires w != [] && w[0] != '{' && w[0] != '"' && '=' !in w
    ensures ParseSegment(w) == Ok([("id", JStr(w))])
  {
  }

  /** `segment "a"`: the text between the quotes is the id. */
  lemma SegmentQuotedText(a: string)
    requires '=' !in a
    ensures ParseSegment("\"" + a + "\"") == Ok([("id", JStr(a))])
  {
    var q := "\"" + a + "\"";
    assert q == ['"'] + a + ['"'];
    assert q[1..|q| - 1] == a && '=' !in q;
    assert StartsWith(q, "\"") && EndsWith(q, "\"");
  }

  /** `id="a"` as key/value pairs: the one key `id` with the quoted text. */
  lemma IdPairText(a: string)
    requires Unescaped(a)
    ensures KvPairs("id=" + ("\"" + a + "\"")) == Ok([("id", SStr(a))])
  {
    var q := "\"" + a + "\"";
    var ps := [("id", q)];
    QuotedPairIsToken("id", a);
    assert q[|q| - 1] == '"' && q[1..|q| - 1] == a;
    assert ps[0] in ps;
    KvPairsText(ps);
    assert Strings.Join(PairTexts(ps), " ") == "id=" + q;
    assert PutScalars([], ps) == [("id", SStr(a))];
  }

  /** `segment id="a"`, as the decompiler writes it: the quoted text is the id. */
  lemma SegmentIdText(a: string)
    requires Unescaped(a)
    ensures ParseSegment("id=" + ("\"" + a + "\"")) == Ok([("id", JStr(a))])
  {
    var t := "id=" + ("\"" + a + "\"");
    IdPairText(a);
    assert t[0] == 'i' && t[2] == '=' && t[2] in t;
    assert ScalarsJson([("id", SStr(a))]) == [("id", JStr(a))];
  }

  /** `null` in any case is no argument; anything else is the argument as written. */
  function AggArg(arg: string): Option<string> {
    if Lower(arg) == "null" then None else Some(arg)
  }

  /** `alias=agg(arg)`: the alias, the aggregate and the argument as written, `null` read as none. */
  lemma GroupFieldText(alias: string, agg: string, arg: string)
    requires Stripped(alias) && '=' !in alias && Ident(agg, false) && Stripped(arg)
    ensures GroupFieldOf(alias + "=" + agg + "(" + arg + ")") == Ok(GroupField(alias, agg, AggArg(arg)))
  {
    var e := agg + "(" + arg + ")";
    assert alias + "=" + agg + "(" + arg + ")" == alias + ['='] + e;
    SplitFirstOf(alias, '=', e);
    assert e[0] == agg[0] && e[|e| - 1] == ')';
    StrippedStrip(e);
    AggExprOf(agg, arg);
    StrippedStrip(alias);
    StrippedStrip(arg);
  }

  /** One assignment that reads as a field: it is collected and the loop goes on. */
  lemma GroupFieldsFromStep(items: seq<string>, acc: seq<GroupField>)
    requires items != [] && items[0] != [] && '=' in items[0] && GroupFieldOf(items[0]).Ok?
    ensures GroupFieldsFrom(items, acc) == GroupFieldsFrom(items[1..], acc + [GroupFieldOf(items[0]).value])
  {
  }

  /** Assignments that read as the given fields: the fields come out in order, after those already collected. */
  lemma {:induction false} GroupFieldsFromAll(items: seq<string>, fields: seq<GroupField>, acc: seq<GroupField>)
    requires |fields| == |items|
    requires forall i :: 0 <= i < |items| ==> items[i] != [] && '=' in items[i] && GroupFieldOf(items[i]) == Ok(fields[i])
    ensures GroupFieldsFrom(items, acc) == Ok(acc + fields)
    decreases |items|
  {
    if items != [] {
      GroupFieldsFromStep(items, acc);
      var rest, more := items[1..], fields[1..];
      forall i | 0 <= i < |rest|
        ensures rest[i] != [] && '=' in rest[i] && GroupFieldOf(rest[i]) == Ok(more[i])
      {
        assert rest[i] == items[i + 1] && more[i] == fields[i + 1];
      }
      GroupFieldsFromAll(rest, more, acc + [fields[0]]);
      AppendHeadTail(acc, fields);
    } else {
      assert acc + fields == acc;
    }
  }

  /** The part of a group stage the decompiler writes for one field: alias, aggregate and argument. */
  predicate CleanGroupPart(f: (string, string, string)) {
    && Stripped(f.0) && (forall i :: 0 <= i < |f.0| ==> f.0[i] !in ",\"()=")
    && Ident(f.1, false)
    && Stripped(f.2) && (forall i :: 0 <= i < |f.2| ==> f.2[i] !in "\"()")
  }

  /** `alias=agg(arg)` for each field. */
  function GroupPartTexts(fs: seq<(string, string, string)>): (r: seq<string>)
    ensures |r| == |fs| && forall i :: 0 <= i < |fs| ==> r[i] == fs[i].0 + "=" + fs[i].1 + "(" + fs[i].2 + ")"
  {
    seq(|fs|, i requires 0 <= i < |fs| => fs[i].0 + "=" + fs[i].1 + "(" + fs[i].2 + ")")
  }

  /** The fields of clean parts, in order. */
  function PartFields(fs: seq<(string, string, string)>): (r: seq<GroupField>)
    ensures |r| == |fs| && forall i :: 0 <= i < |fs| ==> r[i] == GroupField(fs[i].0, fs[i].1, AggArg(fs[i].2))
  {
    seq(|fs|, i requires 0 <= i < |fs| => GroupField(fs[i].0, fs[i].1, AggArg(fs[i].2)))
  }

  /** Each clean part is one assignment and reads back as its field. */
  lemma GroupPartsRead(fs: seq<(string, string, string)>)
    requires forall f :: f in fs ==> CleanGroupPart(f)
    ensures forall t :: t in GroupPartTexts(fs) ==> AssignWhole(t)
    ensures forall i :: 0 <= i < |fs| ==>
              GroupPartTexts(fs)[i] != [] && '=' in GroupPartTexts(fs)[i] && GroupFieldOf(GroupPartTexts(fs)[i]) == Ok(PartFields(fs)[i])
  {
    var ts := GroupPartTexts(fs);
    forall i | 0 <= i < |fs|
      ensures AssignWhole(ts[i]) && ts[i] != [] && '=' in ts[i] && GroupFieldOf(ts[i]) == Ok(PartFields(fs)[i])
    {
      var (alias, agg, arg) := fs[i];
      assert fs[i] in fs;
      var pre := alias + "=" + agg;
      assert pre[|alias|] == '=';
      assert CallParts(pre, arg) by {
        forall k | 0 <= k < |pre| ensures pre[k] !in ",\"()" {
          if k < |alias| { assert pre[k] == alias[k]; }
          else if k > |alias| { assert pre[k] == agg[k - |alias| - 1]; }
        }
        if alias != [] { assert pre[0] == alias[0]; }
      }
      CallIsWhole(pre, arg);
      assert ts[i] == pre + "(" + arg + ")";
      assert ts[i][|alias|] == '=' && ts[i][|alias|] in ts[i];
      assert '=' !in alias by {
        forall k | 0 <= k < |alias| ensures alias[k] != '=' { assert alias[k] !in ",\"()="; }
      }
      GroupFieldText(alias, agg, arg);
    }
  }

  /** `group by g fields {body}`: the group-by text, the keyword `fields`, no mode and the body. */
  lemma GroupRegexFields(g: string, body: string)
    requires g != [] && forall i :: 0 <= i < |g| ==> !IsSpace(g[i])
    ensures GroupRegex("group" + " " + ("by" + " " + (g + " " + ("fields" + (" " + ("{" + body + "}"))))))
         == Some(GroupMatch(g, "fields", None, body))
  {
    var tail := " " + ("{" + body + "}");
    GroupTailOf(body);
    GroupKeywordFieldsOf(tail);
    var r := "fields" + tail;
    assert r[0] == 'f';
    GroupRegexOf(g, r);
  }

  /** Every clean part text is one whole assignment, not empty and stripped. */
  lemma GroupPartsWhole(fs: seq<(string, string, string)>)
    requires forall f :: f in fs ==> CleanGroupPart(f)
    ensures forall t :: t in GroupPartTexts(fs) ==> AssignWhole(t) && t != [] && Stripped(t)
  {
    GroupPartsRead(fs);
  }

  /** The padded, comma-joined part texts strip back to the join and split back into the parts. */
  lemma PaddedPartTexts(fs: seq<(string, string, string)>)
    requires fs != [] && forall f :: f in fs ==> CleanGroupPart(f)
    ensures var j := Strings.Join(GroupPartTexts(fs), ", ");
            Strip(" " + j + " ") == j && j != [] && Assignments(j) == GroupPartTexts(fs)
  {
    var items := GroupPartTexts(fs);
    var j := Strings.Join(items, ", ");
    GroupPartsWhole(fs);
    StrippedJoin(items, ", ");
    StripOfPadded(" ", j, " ");
    AssignmentsJoin(items);
  }

  /** Reading the part texts one by one yields the part fields. */
  lemma PartTextsFields(fs: seq<(string, string, string)>)
    requires forall f :: f in fs ==> CleanGroupPart(f)
    ensures GroupFieldsFrom(GroupPartTexts(fs), []) == Ok(PartFields(fs))
  {
    GroupPartsRead(fs);
    GroupFieldsFromAll(GroupPartTexts(fs), PartFields(fs), []);
    assert [] + PartFields(fs) == PartFields(fs);
  }

  lemma PaddedParts(fs: seq<(string, string, string)>)
    requires fs != [] && forall f :: f in fs ==> CleanGroupPart(f)
    ensures var ft := Strip(" " + Strings.Join(GroupPartTexts(fs), ", ") + " ");
            ft != [] && GroupFieldsFrom(Assignments(ft), []) == Ok(PartFields(fs))
  {
    PaddedPartTexts(fs);
    PartTextsFields(fs);
  }

  /** A list-form `fields` match whose group-by text and body read as `gs` and `fields`. */
  lemma ParseGroupOfMatch(text: string, gs: seq<string>, fields: seq<GroupField>)
    requires GroupRegex(text).Some?
    requires var m := GroupRegex(text).value;
             m.keyword == "fields" && m.mode == None && CommaFields(m.group) == gs
             && Strip(m.body) != [] && GroupFieldsFrom(Assignments(Strip(m.body)), []) == Ok(fields)
    ensures ParseGroup(text) == Ok(GroupFields(gs, fields, false))
  {
    ParseGroupOk(text);
    ListFormFields();
  }

  /** The keyword `fields` with no mode is the list form. */
  lemma ListFormFields()
    ensures !EmitMap("fields", None)
  {
    assert |"fields"| == 6 && |"fieldsmap"| == 9 && |"field"| == 5;
  }

  /** A group match with a body whose fields read: the stage of its group text, fields and mode. */
  lemma ParseGroupOk(text: string)
    requires GroupRegex(text).Some?
    requires var m := GroupRegex(text).value;
             Strip(m.body) != [] && GroupFieldsFrom(Assignments(Strip(m.body)), []).Ok?
    ensures var m := GroupRegex(text).value;
            ParseGroup(text) == Ok(GroupFields(CommaFields(m.group), GroupFieldsFrom(Assignments(Strip(m.body)), []).value, EmitMap(m.keyword, m.mode)))
  {
  }

  /**
   * `group by g1,g2 fields { a1=f1(x1), ... }`, as the decompiler writes a list-form group:
   * the group-by fields and one field per part, in order, in list form.
   */
  lemma ParseGroupText(gs: seq<string>, fs: seq<(string, string, string)>)
    requires forall g :: g in gs ==> g != [] && ',' !in g && forall i :: 0 <= i < |g| ==> !IsSpace(g[i])
    requires gs != []
    requires fs != [] && forall f :: f in fs ==> CleanGroupPart(f)
    ensures ParseGroup("group" + " " + ("by" + " " + (Strings.Join(gs, ",") + " " + ("fields" + (" " + ("{" + (" " + Strings.Join(GroupPartTexts(fs), ", ") + " ") + "}"))))))
         == Ok(GroupFields(gs, PartFields(fs), false))
  {
    var g := Strings.Join(gs, ",");
    JoinChars(gs, ",", c => !IsSpace(c));
    StrippedJoin(gs, ",");
    assert forall x :: x in gs ==> x != [] && Stripped(x) && ',' !in x by {
      forall x | x in gs ensures Stripped(x) { assert !IsSpace(x[0]) && !IsSpace(x[|x| - 1]); }
    }
    var body := " " + Strings.Join(GroupPartTexts(fs), ", ") + " ";
    GroupRegexFields(g, body);
    CommaFieldsJoin(gs);
    PaddedParts(fs);
    ParseGroupOfMatch("group" + " " + ("by" + " " + (g + " " + ("fields" + (" " + ("{" + body + "}"))))), gs, PartFields(fs));
  }

  /** Fields joined with `,`, each clean and free of `,` and `]`: the text inside the brackets reads back as them. */
  lemma MergeFieldsJoin(fs: seq<string>)
    requires fs != []
    requires forall f :: f in fs ==> f != [] && Stripped(f) && ',' !in f && ']' !in f
    ensures var j := Strings.Join(fs, ",");
            ']' !in j && CommaFields(Strip(j)) == fs
  {
    var j := Strings.Join(fs, ",");
    JoinChars(fs, ",", c => c != ']');
    StrippedJoin(fs, ",");
    StrippedStrip(j);
    CommaFieldsJoin(fs);
  }

  /** `merge fields [f1,f2]`: the fields as written, no mappings. */
  lemma ParseMergeHeaderText(fs: seq<string>)
    requires fs != []
    requires forall f :: f in fs ==> f != [] && Stripped(f) && ',' !in f && ']' !in f
    ensures ParseMergeHeader("merge" + " " + ("fields" + " " + ("[" + Strings.Join(fs, ",") + "]"))) == Ok((fs, None))
  {
    MergeFieldsJoin(fs);
    MergeHeaderMatchOf(Strings.Join(fs, ","));
  }

  /** `{ k1=v1, k2=v2 }` spelled with the padding inside the braces. */
  lemma BracedPadded(j: string)
    ensures "{" + (" " + j + " ") + "}" == "{ " + j + " }"
  {
  }

  /** `merge fields [f1,f2] mappings { k1=v1, ... }`: the fields as written and the mappings in order. */
  lemma ParseMergeHeaderMappingsText(fs: seq<string>, ps: seq<(string, string)>)
    requires fs != []
    requires forall f :: f in fs ==> f != [] && Stripped(f) && ',' !in f && ']' !in f
    requires ps != [] && forall p :: p in ps ==> CleanPair(p) && GroupPiece(p.0 + "=" + p.1)
    ensures var m := " " + Strings.Join(PairTexts(ps), ", ") + " ";
            ParseMergeHeader("merge" + " " + ("fields" + " " + ("[" + Strings.Join(fs, ",") + "]" + (" " + ("mappings" + " " + ("{" + m + "}"))))))
              == Ok((fs, Some(PutStrings([], ps))))
  {
    var j := Strings.Join(PairTexts(ps), ", ");
    var m := " " + j + " ";
    MergeFieldsJoin(fs);
    MergeHeaderMappingsOf(Strings.Join(fs, ","), m);
    BracedPadded(j);
    var b := "{" + m + "}";
    assert b[0] == '{' && b[|b| - 1] == '}';
    StrippedStrip(b);
    BraceMapText(ps, "mappings");
  }
}
