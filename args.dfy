/**
 * Argument syntax shared by the header lines and the stages: scalar tokens,
 * whitespace-separated `key=value` lists, `[k=v, ...]` bracket lists and
 * `{ k=v, ... }` brace maps.
 */
module Args {
  import opened Wrappers
  import opened Strings
  import opened JsonData
  import opened Ast
  import opened Scanners

  /** `token.startswith('"') and token.endswith('"') and len(token) >= 2` */
  predicate Quoted(token: string) {
    |token| >= 2 && token[0] == '"' && token[|token| - 1] == '"'
  }

  /** `t[1:].isdigit()` after a leading `-` */
  predicate NegativeDigits(token: string) {
    |token| >= 1 && token[0] == '-' && IsDigitString(token[1..])
  }

  /**
   * `_parse_scalar`: a quoted string loses its quotes, `[]` is the empty list,
   * decimal integers (leading zeros allowed, one optional `-`) become numbers,
   * and every other token, `-` and `-x` among them, stays as written.
   */
  function ParseScalar(token: string): (r: Scalar)
    ensures r.SEmptyList? <==> token == "[]"
    ensures Quoted(token) ==> r == SStr(token[1..|token| - 1])
    ensures !Quoted(token) && IsDigitString(token) ==> r == SInt(DigitsValue(token))
    ensures !Quoted(token) && NegativeDigits(token) ==> r == SInt(0 - DigitsValue(token[1..]))
    ensures !Quoted(token) && token != "[]" && !IsDigitString(token) && !NegativeDigits(token) ==> r == SStr(token)
  {
    if Quoted(token) then SStr(token[1..|token| - 1])
    else if token == "[]" then SEmptyList
    else if IsDigitString(token) then SInt(DigitsValue(token))
    else if NegativeDigits(token) then SInt(0 - DigitsValue(token[1..]))
    else SStr(token)
  }

  /** The edges of the integer rule: a bare or non-numeric `-` stays text, leading zeros and `-0` are numbers. */
  lemma ParseScalarEdges()
    ensures ParseScalar("-") == SStr("-")
    ensures ParseScalar("-x") == SStr("-x")
    ensures ParseScalar("007") == SInt(7)
    ensures ParseScalar("-0") == SInt(0)
  {
    assert !IsDigitString("-"[1..]);
    assert !IsDigitString("-x"[1..]) by { assert !IsDigit("-x"[1..][0]); }
    assert DigitsValue("007") == 7 by {
      assert "007"[..2] == "00" && "00"[..1] == "0" && "0"[..0] == "";
    }
    assert "-0"[1..] == "0" && "0"[..0] == "";
  }

  /** The decimal rendering of any integer reads back as that integer. */
  lemma ParseScalarInt(i: int)
    ensures ParseScalar(IntToString(i)) == SInt(i)
  {
    var t := IntToString(i);
    if i < 0 {
      assert !Quoted(t) && !IsDigitString(t);
      assert NegativeDigits(t);
    } else {
      assert !Quoted(t) by { assert IsDigit(t[0]); }
    }
  }

  /** A double-quoted token reads back as the text between the quotes, unescaped or not. */
  lemma ParseScalarQuoted(s: string)
    ensures ParseScalar("\"" + s + "\"") == SStr(s)
  {
    var t := "\"" + s + "\"";
    assert Quoted(t);
    assert t[1..|t| - 1] == s;
  }

  /** A token that is not quoted, not `[]` and not an integer stays as written. */
  lemma ParseScalarWord(t: string)
    requires t != [] && t[0] != '"' && t[0] != '-' && t[0] != '[' && !IsDigit(t[0])
    ensures ParseScalar(t) == SStr(t)
  {
    assert !IsDigitString(t);
  }

  /** `str(v)` */
  function ScalarText(v: Scalar): string {
    match v
    case SStr(s) => s
    case SEmptyList => "[]"
    case SInt(i) => IntToString(i)
  }

  /**
   * `int(v)`: integers as they are, strings through Python's `int()` (its
   * `ValueError` text on failure); the empty list raises `TypeError`, kept
   * here as an ordinary error.
   */
  function ScalarInt(v: Scalar): (r: Result<int>)
    ensures v.SInt? ==> r == Ok(v.i)
    ensures v.SStr? ==> (r.Ok? <==> PyInt(v.s).Some?)
    ensures v.SStr? && r.Ok? ==> r.value == PyInt(v.s).value
    ensures v.SEmptyList? ==> r.Err?
  {
    match v
    case SInt(i) => Ok(i)
    case SStr(s) => (match PyInt(s) case Some(i) => Ok(i) case None => Err("invalid literal for int() with base 10: '" + s + "'"))
    case SEmptyList => Err("int() argument must be a string, a bytes-like object or a real number, not 'list'")
  }

  /** A string holding an integer's decimal rendering converts back to that integer. */
  lemma ScalarIntText(i: int)
    ensures ScalarInt(SStr(IntToString(i))) == Ok(i)
  {
    PyIntOfIntToString(i);
  }

  /** The JSON value the compiler emits for a scalar. */
  function ScalarJson(v: Scalar): Json {
    match v
    case SStr(s) => JStr(s)
    case SEmptyList => JList([])
    case SInt(i) => JInt(i)
  }

  /** `_coerce_time_value` */
  function CoerceTimeValue(v: Scalar): (r: Result<TimeValue>)
    ensures v.SInt? ==> r == Ok(TInt(v.i))
    ensures v.SStr? && Lower(v.s) == "now()" ==> r == Ok(TStr("now()"))
    ensures v.SStr? && Lower(v.s) != "now()" ==> r == Ok(TStr(v.s))
    ensures v.SEmptyList? <==> r.Err?
  {
    match v
    case SInt(i) => Ok(TInt(i))
    case SStr(s) => if Lower(s) == "now()" then Ok(TStr("now()")) else Ok(TStr(s))
    case SEmptyList => Err("Unsupported time value: []")
  }

  // ---------------------------------------------------------------------------
  // Assignments written as `k=v`, and the dictionaries they describe

  /** `k=v` for each key and value, in order. */
  function PairTexts(ps: seq<(string, string)>): (r: seq<string>)
    ensures |r| == |ps| && forall i :: 0 <= i < |ps| ==> r[i] == ps[i].0 + "=" + ps[i].1
  {
    if ps == [] then [] else [ps[0].0 + "=" + ps[0].1] + PairTexts(ps[1..])
  }

  /** A key without `=` and without surrounding spaces, and a value without surrounding spaces. */
  predicate CleanPair(p: (string, string)) {
    Stripped(p.0) && '=' !in p.0 && Stripped(p.1)
  }

  /** The dictionary `out` after `out[k] = _parse_scalar(v)` for each pair in order. */
  function PutScalars(out: Dict<Scalar>, ps: seq<(string, string)>): Dict<Scalar>
    decreases |ps|
  {
    if ps == [] then out else PutScalars(Put(out, ps[0].0, ParseScalar(ps[0].1)), ps[1..])
  }

  /** The dictionary `out` after `out[k] = v` for each pair in order. */
  function PutStrings(out: Dict<string>, ps: seq<(string, string)>): Dict<string>
    decreases |ps|
  {
    if ps == [] then out else PutStrings(Put(out, ps[0].0, ps[0].1), ps[1..])
  }

  lemma PairTextsTail(ps: seq<(string, string)>)
    requires ps != []
    ensures PairTexts(ps)[1..] == PairTexts(ps[1..])
    ensures PairTexts(ps)[0] == ps[0].0 + "=" + ps[0].1
  {
  }

  // ---------------------------------------------------------------------------
  // `_split_kv_pairs`

  /** The dictionary loop of `_split_kv_pairs`, from the parts not yet seen. */
  function KvFold(parts: seq<string>, out: Dict<Scalar>): Result<Dict<Scalar>>
    decreases |parts|
  {
    if parts == [] then Ok(out)
    else if '=' !in parts[0] then Err("Expected key=value, got: " + parts[0])
    else
      var (k, v) := SplitFirst(parts[0], '=');
      KvFold(parts[1..], Put(out, Strip(k), ParseScalar(Strip(v))))
  }

  function KvPairs(text: string): Result<Dict<Scalar>> {
    KvFold(SplitTokens(Strip(text)), [])
  }

  method SplitKvPairs(text: string) returns (r: Result<Dict<Scalar>>)
    ensures r == KvPairs(text)
  {
    var parts := SplitTokensPreservingGroups(Strip(text));
    var out: Dict<Scalar> := [];
    var i := 0;
    while i < |parts|
      invariant 0 <= i <= |parts|
      invariant KvFold(parts[i..], out) == KvFold(parts, [])
    {
      assert parts[i..][0] == parts[i] && parts[i..][1..] == parts[i + 1..];
      var part := parts[i];
      if '=' !in part {
        assert KvFold(parts[i..], out) == Err("Expected key=value, got: " + part);
        return Err("Expected key=value, got: " + part);
      }
      var (k, v) := SplitFirst(part, '=');
      assert KvFold(parts[i..], out) == KvFold(parts[i + 1..], Put(out, Strip(k), ParseScalar(Strip(v))));
      out := Put(out, Strip(k), ParseScalar(Strip(v)));
      i := i + 1;
    }
    assert parts[|parts|..] == [];
    r := Ok(out);
  }

  /** A part without `=` is an error, wherever it stands. */
  lemma {:induction false} KvFoldNeedsEquals(parts: seq<string>, out: Dict<Scalar>, j: nat)
    requires j < |parts| && '=' !in parts[j]
    ensures KvFold(parts, out).Err?
    decreases |parts|
  {
    if j > 0 && '=' in parts[0] {
      var kv := SplitFirst(parts[0], '=');
      var out' := Put(out, Strip(kv.0), ParseScalar(Strip(kv.1)));
      assert parts[1..][j - 1] == parts[j];
      assert KvFold(parts, out) == KvFold(parts[1..], out');
      KvFoldNeedsEquals(parts[1..], out', j - 1);
    }
  }

  /** Every key the parts assign ends up in the result, so a later lookup finds it. */
  lemma {:induction false} KvFoldKeeps(parts: seq<string>, out: Dict<Scalar>, key: string)
    requires key in Keys(out)
    requires KvFold(parts, out).Ok?
    ensures key in Keys(KvFold(parts, out).value)
    decreases |parts|
  {
    if parts != [] {
      var (k, v) := SplitFirst(parts[0], '=');
      PutKeys(out, Strip(k), ParseScalar(Strip(v)));
      KvFoldKeeps(parts[1..], Put(out, Strip(k), ParseScalar(Strip(v))), key);
    }
  }

  // ---------------------------------------------------------------------------
  // `_parse_bracket_args`

  function BracketFold(items: seq<string>, out: Dict<Scalar>): Result<Dict<Scalar>>
    decreases |items|
  {
    if items == [] then Ok(out)
    else if items[0] == [] then BracketFold(items[1..], out)
    else if '=' !in items[0] then Err("Expected key=value inside [], got: " + items[0])
    else
      var (k, v) := SplitFirst(items[0], '=');
      BracketFold(items[1..], Put(out, Strip(k), ParseScalar(Strip(v))))
  }

  /** Folding items into a dictionary never repeats a key. */
  lemma {:induction false} BracketFoldDistinct(items: seq<string>, out: Dict<Scalar>)
    requires DistinctKeys(out)
    ensures BracketFold(items, out).Ok? ==> DistinctKeys(BracketFold(items, out).value)
    decreases |items|
  {
    if items != [] {
      if items[0] == [] {
        BracketFoldDistinct(items[1..], out);
      } else if '=' in items[0] {
        var (k, v) := SplitFirst(items[0], '=');
        PutDistinct(out, Strip(k), ParseScalar(Strip(v)));
        BracketFoldDistinct(items[1..], Put(out, Strip(k), ParseScalar(Strip(v))));
      }
    }
  }

  /** The arguments of `[k=v, ...]` form a dictionary: each key once. */
  lemma BracketArgsDistinct(text: string)
    ensures BracketArgs(text).Ok? ==> DistinctKeys(BracketArgs(text).value)
  {
    var s := Strip(text);
    if StartsWith(s, "[") && EndsWith(s, "]") {
      BracketArgsOfBrackets(text);
      var inner := Strip(s[1..|s| - 1]);
      if inner != [] {
        BracketFoldDistinct(BracketItems(inner), []);
      }
    }
  }

  /** `[k=v, ...]`: anything else is an error; `[]` and blank brackets give no arguments. */
  function BracketArgs(text: string): (r: Result<Dict<Scalar>>)
    ensures !(StartsWith(Strip(text), "[") && EndsWith(Strip(text), "]")) ==> r.Err?
  {
    var s := Strip(text);
    if !(StartsWith(s, "[") && EndsWith(s, "]")) then Err("Expected [..] argument list, got: " + text)
    else
      assert s[0] == '[' && s[|s| - 1] == ']';
      BracketInner(Strip(s[1..|s| - 1]))
  }

  function BracketInner(inner: string): Result<Dict<Scalar>> {
    if inner == [] then Ok([]) else BracketFold(BracketItems(inner), [])
  }

  lemma BracketArgsOfBrackets(text: string)
    requires StartsWith(Strip(text), "[") && EndsWith(Strip(text), "]")
    ensures |Strip(text)| >= 2
    ensures BracketArgs(text) == BracketInner(Strip(Strip(text)[1..|Strip(text)| - 1]))
  {
    var s := Strip(text);
    assert s[0] == '[' && s[|s| - 1] == ']';
  }

  method ParseBracketArgs(text: string) returns (r: Result<Dict<Scalar>>)
    ensures r == BracketArgs(text)
  {
    var s := Strip(text);
    if !(StartsWith(s, "[") && EndsWith(s, "]")) {
      return Err("Expected [..] argument list, got: " + text);
    }
    BracketArgsOfBrackets(text);
    r := ParseBracketInner(Strip(s[1..|s| - 1]));
  }

  /** The text between the brackets: split into items, then folded into a dictionary. */
  method ParseBracketInner(inner: string) returns (r: Result<Dict<Scalar>>)
    ensures r == BracketInner(inner)
  {
    if inner == [] {
      return Ok([]);
    }
    var items := SplitBracketItems(inner);
    r := FillBracketArgs(items);
  }

  /** The dictionary loop of `_parse_bracket_args`. */
  method FillBracketArgs(items: seq<string>) returns (r: Result<Dict<Scalar>>)
    ensures r == BracketFold(items, [])
  {
    var out: Dict<Scalar> := [];
    var i := 0;
    while i < |items|
      invariant 0 <= i <= |items|
      invariant BracketFold(items[i..], out) == BracketFold(items, [])
    {
      assert items[i..][0] == items[i] && items[i..][1..] == items[i + 1..];
      var item := items[i];
      if item != [] {
        if '=' !in item {
          assert BracketFold(items[i..], out) == Err("Expected key=value inside [], got: " + item);
          return Err("Expected key=value inside [], got: " + item);
        }
        var (k, v) := SplitFirst(item, '=');
        assert BracketFold(items[i..], out) == BracketFold(items[i + 1..], Put(out, Strip(k), ParseScalar(Strip(v))));
        out := Put(out, Strip(k), ParseScalar(Strip(v)));
      } else {
        assert BracketFold(items[i..], out) == BracketFold(items[i + 1..], out);
      }
      i := i + 1;
    }
    assert items[|items|..] == [];
    r := Ok(out);
  }

  // ---------------------------------------------------------------------------
  // `_parse_brace_map`

  function BraceFold(items: seq<string>, out: Dict<string>, context: string): Result<Dict<string>>
    decreases |items|
  {
    if items == [] then Ok(out)
    else if items[0] == [] then BraceFold(items[1..], out, context)
    else if '=' !in items[0] then Err("Invalid " + context + " mapping: " + items[0])
    else
      var (k, v) := SplitFirst(items[0], '=');
      BraceFold(items[1..], Put(out, Strip(k), Strip(v)), context)
  }

  /** `{ k=v, ... }` with the values kept as text; `{}` is an error. */
  function BraceMap(text: string, context: string): (r: Result<Dict<string>>)
    ensures !(StartsWith(Strip(text), "{") && EndsWith(Strip(text), "}")) ==> r.Err?
    ensures r.Ok? ==> Strip(Strip(text)[1..|Strip(text)| - 1]) != []
  {
    var s := Strip(text);
    if !(StartsWith(s, "{") && EndsWith(s, "}")) then Err(context + " syntax: | " + context + " { a=b, c=d }")
    else
      assert s[0] == '{' && s[|s| - 1] == '}';
      var inner := Strip(s[1..|s| - 1]);
      if inner == [] then Err(context + " map cannot be empty")
      else BraceFold(SplitByComma(inner), [], context)
  }

  method ParseBraceMap(text: string, context: string) returns (r: Result<Dict<string>>)
    ensures r == BraceMap(text, context)
  {
    var s := Strip(text);
    if !(StartsWith(s, "{") && EndsWith(s, "}")) {
      return Err(context + " syntax: | " + context + " { a=b, c=d }");
    }
    assert s[0] == '{' && s[|s| - 1] == '}';
    var inner := Strip(s[1..|s| - 1]);
    if inner == [] {
      return Err(context + " map cannot be empty");
    }
    var items := SplitByCommaRespectingGroups(inner);
    assert BraceMap(text, context) == BraceFold(items, [], context);
    r := FillBraceMap(items, context);
  }

  /** The dictionary loop of `_parse_brace_map`. */
  method FillBraceMap(items: seq<string>, context: string) returns (r: Result<Dict<string>>)
    ensures r == BraceFold(items, [], context)
  {
    var out: Dict<string> := [];
    var i := 0;
    while i < |items|
      invariant 0 <= i <= |items|
      invariant BraceFold(items[i..], out, context) == BraceFold(items, [], context)
    {
      assert items[i..][0] == items[i] && items[i..][1..] == items[i + 1..];
      var item := items[i];
      if item != [] {
        if '=' !in item {
          assert BraceFold(items[i..], out, context) == Err("Invalid " + context + " mapping: " + item);
          return Err("Invalid " + context + " mapping: " + item);
        }
        var (k, v) := SplitFirst(item, '=');
        assert BraceFold(items[i..], out, context) == BraceFold(items[i + 1..], Put(out, Strip(k), Strip(v)), context);
        out := Put(out, Strip(k), Strip(v));
      } else {
        assert BraceFold(items[i..], out, context) == BraceFold(items[i + 1..], out, context);
      }
      i := i + 1;
    }
    assert items[|items|..] == [];
    r := Ok(out);
  }

  // ---------------------------------------------------------------------------
  // Each syntax reads its pairs back

  lemma {:induction false} KvFoldPairs(ps: seq<(string, string)>, out: Dict<Scalar>)
    requires forall p :: p in ps ==> CleanPair(p)
    ensures KvFold(PairTexts(ps), out) == Ok(PutScalars(out, ps))
    decreases |ps|
  {
    if ps != [] {
      assert ps[0] in ps && forall p :: p in ps[1..] ==> p in ps;
      PairTextsTail(ps);
      assert ps[0].0 + "=" + ps[0].1 == ps[0].0 + ['='] + ps[0].1;
      SplitFirstOf(ps[0].0, '=', ps[0].1);
      StrippedStrip(ps[0].0);
      StrippedStrip(ps[0].1);
      KvFoldPairs(ps[1..], Put(out, ps[0].0, ParseScalar(ps[0].1)));
    }
  }

  lemma {:induction false} BracketFoldPairs(ps: seq<(string, string)>, out: Dict<Scalar>)
    requires forall p :: p in ps ==> CleanPair(p)
    ensures BracketFold(PairTexts(ps), out) == Ok(PutScalars(out, ps))
    decreases |ps|
  {
    if ps != [] {
      assert ps[0] in ps && forall p :: p in ps[1..] ==> p in ps;
      PairTextsTail(ps);
      assert ps[0].0 + "=" + ps[0].1 == ps[0].0 + ['='] + ps[0].1;
      SplitFirstOf(ps[0].0, '=', ps[0].1);
      StrippedStrip(ps[0].0);
      StrippedStrip(ps[0].1);
      BracketFoldPairs(ps[1..], Put(out, ps[0].0, ParseScalar(ps[0].1)));
    }
  }

  lemma {:induction false} BraceFoldPairs(ps: seq<(string, string)>, out: Dict<string>, context: string)
    requires forall p :: p in ps ==> CleanPair(p)
    ensures BraceFold(PairTexts(ps), out, context) == Ok(PutStrings(out, ps))
    decreases |ps|
  {
    if ps != [] {
      assert ps[0] in ps && forall p :: p in ps[1..] ==> p in ps;
      PairTextsTail(ps);
      assert ps[0].0 + "=" + ps[0].1 == ps[0].0 + ['='] + ps[0].1;
      SplitFirstOf(ps[0].0, '=', ps[0].1);
      StrippedStrip(ps[0].0);
      StrippedStrip(ps[0].1);
      BraceFoldPairs(ps[1..], Put(out, ps[0].0, ps[0].1), context);
    }
  }

  /** `k=v` tokens separated by spaces: every key gets its value read as a scalar. */
  lemma KvPairsText(ps: seq<(string, string)>)
    requires forall p :: p in ps ==> CleanPair(p) && GroupToken(p.0 + "=" + p.1)
    ensures KvPairs(Strings.Join(PairTexts(ps), " ")) == Ok(PutScalars([], ps))
  {
    var ts := PairTexts(ps);
    assert forall t :: t in ts ==> GroupToken(t) by {
      forall t | t in ts ensures GroupToken(t) {
        var i :| 0 <= i < |ts| && ts[i] == t;
        assert ps[i] in ps;
      }
    }
    StrippedJoin(ts, " ");
    StrippedStrip(Strings.Join(ts, " "));
    SplitTokensJoin(ts);
    KvFoldPairs(ps, []);
  }

  /** `[k=v,...]`: every key gets its value read as a scalar; `[]` gives no arguments. */
  lemma BracketArgsText(ps: seq<(string, string)>)
    requires forall p :: p in ps ==> CleanPair(p) && PlainItem(p.0 + "=" + p.1)
    ensures BracketArgs("[" + Strings.Join(PairTexts(ps), ",") + "]") == Ok(PutScalars([], ps))
  {
    var ts := PairTexts(ps);
    var j := Strings.Join(ts, ",");
    var text := "[" + j + "]";
    assert forall t :: t in ts ==> PlainItem(t) by {
      forall t | t in ts ensures PlainItem(t) {
        var i :| 0 <= i < |ts| && ts[i] == t;
        assert ps[i] in ps;
      }
    }
    StrippedJoin(ts, ",");
    StrippedStrip(text);
    assert StartsWith(text, "[") && EndsWith(text, "]");
    assert text[1..|text| - 1] == j;
    StrippedStrip(j);
    if ps != [] {
      BracketItemsJoin(ts);
      BracketFoldPairs(ps, []);
    }
  }

  /** `{ k=v, ... }`, as the decompiler writes it: every key gets its value as text. */
  lemma BraceMapText(ps: seq<(string, string)>, context: string)
    requires ps != []
    requires forall p :: p in ps ==> CleanPair(p) && GroupPiece(p.0 + "=" + p.1)
    ensures BraceMap("{ " + Strings.Join(PairTexts(ps), ", ") + " }", context) == Ok(PutStrings([], ps))
  {
    var ts := PairTexts(ps);
    var j := Strings.Join(ts, ", ");
    var text := "{ " + j + " }";
    assert forall t :: t in ts ==> GroupPiece(t) by {
      forall t | t in ts ensures GroupPiece(t) {
        var i :| 0 <= i < |ts| && ts[i] == t;
        assert ps[i] in ps;
      }
    }
    StrippedJoin(ts, ", ");
    StrippedStrip(text);
    assert StartsWith(text, "{") && EndsWith(text, "}");
    assert text[1..|text| - 1] == " " + j + " ";
    StripOfPadded(" ", j, " ");
    SplitByCommaJoin(ts);
    BraceFoldPairs(ps, [], context);
  }

  /** A non-empty item without `=` is an error, wherever it stands. */
  lemma {:induction false} BraceFoldNeedsEquals(items: seq<string>, out: Dict<string>, context: string, j: nat)
    requires j < |items| && items[j] != [] && '=' !in items[j]
    requires forall i :: 0 <= i < j ==> items[i] == [] || '=' in items[i]
    ensures BraceFold(items, out, context).Err?
    decreases |items|
  {
    if j > 0 {
      assert items[1..][j - 1] == items[j];
      assert forall i :: 0 <= i < j - 1 ==> items[1..][i] == items[i + 1];
      if items[0] == [] {
        BraceFoldNeedsEquals(items[1..], out, context, j - 1);
      } else {
        var kv := SplitFirst(items[0], '=');
        BraceFoldNeedsEquals(items[1..], Put(out, Strip(kv.0), Strip(kv.1)), context, j - 1);
      }
    }
  }
}
