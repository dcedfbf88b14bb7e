/**
 * `load_dotenv`: `KEY=VALUE` lines of a `.env` file copied into the process
 * environment without overriding what is already set. The file arrives as its
 * lines and a flag saying whether the path named a file.
 */
module Env {
  import opened Wrappers
  import opened Strings

  /** `(val.startswith(q) and val.endswith(q))` for one quote character `q`. */
  predicate WrappedIn(val: string, q: char) {
    val != [] && val[0] == q && val[|val| - 1] == q
  }

  /**
   * `val[1:-1]` when the value starts and ends with the same quote character.
   * A value that is a single quote character starts and ends with it, so it
   * becomes empty, as `'"'[1:-1]` does.
   */
  function Unquote(val: string): (r: string)
    ensures (WrappedIn(val, '"') || WrappedIn(val, '\'')) && |val| >= 2 ==> r == val[1..|val| - 1]
    ensures (WrappedIn(val, '"') || WrappedIn(val, '\'')) && |val| < 2 ==> r == ""
    ensures !(WrappedIn(val, '"') || WrappedIn(val, '\'')) ==> r == val
  {
    if WrappedIn(val, '"') || WrappedIn(val, '\'') then
      if |val| >= 2 then val[1..|val| - 1] else ""
    else val
  }

  /**
   * One line of the file: the variable it sets, or nothing for a blank line, a
   * comment, a line without `=` and a line whose key is empty.
   */
  function ParseLine(raw: string): (r: Option<(string, string)>)
    ensures r.Some? ==> r.value.0 != [] && Stripped(r.value.0) && '=' !in r.value.0
  {
    var line := Strip(raw);
    if line == [] || line[0] == '#' then None
    else if '=' !in line then None
    else
      var (k, v) := SplitFirst(line, '=');
      var key := Strip(k);
      if key == [] then None
      else
        StripIsStripped(k);
        StripKeeps(k, '=');
        Some((key, Unquote(Strip(v))))
  }

  /** A value wrapped in one pair of matching quotes loses exactly that pair. */
  lemma UnquoteOnePair(q: char, s: string)
    requires q == '"' || q == '\''
    ensures Unquote([q] + s + [q]) == s
  {
    var val := [q] + s + [q];
    assert WrappedIn(val, q);
    assert val[1..|val| - 1] == s;
  }

  /** `KEY=VALUE` has no surrounding spaces when neither part has. */
  lemma AssignmentStripped(key: string, val: string, line: string)
    requires key != [] && Stripped(key) && Stripped(val) && line == key + "=" + val
    ensures Stripped(line) && line[0] == key[0]
  {
    assert line[0] == key[0];
    if val != [] {
      assert line[|line| - 1] == val[|val| - 1];
    } else {
      assert line[|line| - 1] == '=';
    }
  }

  /** `KEY=VALUE` splits at the `=` after the key when the key has none. */
  lemma AssignmentSplit(key: string, val: string, line: string)
    requires '=' !in key && line == key + "=" + val
    ensures '=' in line && SplitFirst(line, '=') == (key, val)
  {
    assert line == key + ['='] + val;
    IndexOfFirst(key, '=', val);
    assert line[..|key|] == key && line[|key| + 1..] == val;
  }

  /**
   * A line written as `KEY=VALUE`, with a key that is non-empty, has no `=`, does
   * not start a comment and neither key nor value has surrounding spaces, sets
   * that key to the unquoted value.
   */
  lemma ParseAssignment(key: string, val: string)
    requires key != [] && Stripped(key) && '=' !in key && key[0] != '#'
    requires Stripped(val)
    ensures ParseLine(key + "=" + val) == Some((key, Unquote(val)))
  {
    var line := key + "=" + val;
    AssignmentStripped(key, val, line);
    StrippedStrip(line);
    AssignmentSplit(key, val, line);
    StrippedStrip(key);
    StrippedStrip(val);
  }

  /** `os.environ.setdefault(key, val)` */
  function SetDefault(env: map<string, string>, key: string, val: string): (r: map<string, string>)
    ensures key in r && r[key] == if key in env then env[key] else val
    ensures forall k :: k != key ==> (k in r <==> k in env) && (k in env ==> r[k] == env[k])
  {
    if key in env then env else env[key := val]
  }

  /** What each line of the file sets, in file order. */
  function ParsedLines(lines: seq<string>): (r: seq<Option<(string, string)>>)
    ensures |r| == |lines|
    ensures forall i :: 0 <= i < |lines| ==> r[i] == ParseLine(lines[i])
  {
    seq(|lines|, i requires 0 <= i < |lines| => ParseLine(lines[i]))
  }

  /** One turn of the loop: the variable the line sets is set unless it already is. */
  function Assign(env: map<string, string>, entry: Option<(string, string)>): (r: map<string, string>)
    ensures entry.None? ==> r == env
    ensures entry.Some? ==> r == SetDefault(env, entry.value.0, entry.value.1)
  {
    match entry
    case Some((key, val)) => SetDefault(env, key, val)
    case None => env
  }

  /** The environment after the loop has run on `env` over the entries from position `from` on. */
  function LoadEntries(env: map<string, string>, entries: seq<Option<(string, string)>>, from: nat): map<string, string>
    requires from <= |entries|
    decreases |entries| - from
  {
    if from == |entries| then env else LoadEntries(Assign(env, entries[from]), entries, from + 1)
  }

  /** Entry `e` sets `key`. */
  predicate Sets(e: Option<(string, string)>, key: string) {
    e.Some? && e.value.0 == key
  }

  /** The position of the first entry from `from` on that sets `key`: a search, independent of the loop. */
  function FirstSetting(entries: seq<Option<(string, string)>>, key: string, from: nat): (r: Option<nat>)
    requires from <= |entries|
    ensures r.None? <==> forall i :: from <= i < |entries| ==> !Sets(entries[i], key)
    ensures r.Some? ==> from <= r.value < |entries| && Sets(entries[r.value], key)
                        && forall i :: from <= i < r.value ==> !Sets(entries[i], key)
    decreases |entries| - from
  {
    if from == |entries| then None
    else if Sets(entries[from], key) then Some(from)
    else FirstSetting(entries, key, from + 1)
  }

  /**
   * The loop never overrides a variable that was set, and a variable it sets takes
   * the value of the first entry that names it.
   */
  lemma {:induction false} LoadEntriesFirstWins(env: map<string, string>, entries: seq<Option<(string, string)>>, from: nat, key: string)
    requires from <= |entries|
    ensures key in env ==> key in LoadEntries(env, entries, from) && LoadEntries(env, entries, from)[key] == env[key]
    ensures key !in env ==> (key in LoadEntries(env, entries, from) <==> FirstSetting(entries, key, from).Some?)
    ensures key !in env && FirstSetting(entries, key, from).Some? ==>
              LoadEntries(env, entries, from)[key] == entries[FirstSetting(entries, key, from).value].value.1
    decreases |entries| - from
  {
    if from < |entries| {
      LoadEntriesFirstWins(Assign(env, entries[from]), entries, from + 1, key);
    }
  }

  /** The variables `load_dotenv` adds are exactly the keys of the file that were not set. */
  lemma LoadedKeys(env: map<string, string>, lines: seq<string>, key: string)
    ensures key in LoadEntries(env, ParsedLines(lines), 0)
            <==> key in env || exists i :: 0 <= i < |lines| && Sets(ParseLine(lines[i]), key)
  {
    var es := ParsedLines(lines);
    LoadEntriesFirstWins(env, es, 0, key);
    if exists i :: 0 <= i < |lines| && Sets(ParseLine(lines[i]), key) {
      var i :| 0 <= i < |lines| && Sets(ParseLine(lines[i]), key);
      assert Sets(es[i], key);
    }
  }

  /** The process environment, updated in place by `load_dotenv`. */
  class Environment {
    var vars: map<string, string>

    constructor (initial: map<string, string>)
      ensures vars == initial
    {
      vars := initial;
    }

    /** `os.environ.setdefault(key, val)` */
    method SetDefaultVar(key: string, val: string)
      modifies this
      ensures vars == SetDefault(old(vars), key, val)
    {
      if key !in vars {
        vars := vars[key := val];
      }
    }

    /** The body of the loop in `load_dotenv` for one line of the file. */
    method LoadLine(raw: string)
      modifies this
      ensures vars == Assign(old(vars), ParseLine(raw))
    {
      var line := Strip(raw);
      if line == [] || line[0] == '#' {
        return;
      }
      if '=' !in line {
        return;
      }
      var (k, v) := SplitFirst(line, '=');
      var key := Strip(k);
      var val := Strip(v);
      if key == [] {
        return;
      }
      val := Unquote(val);
      assert ParseLine(raw) == Some((key, val));
      SetDefaultVar(key, val);
    }

    /**
     * `load_dotenv(path)`: `isFile` says whether the path exists and is a file, and
     * `lines` is its text split into lines. It reports whether the file was read.
     */
    method LoadDotenv(isFile: bool, lines: seq<string>) returns (loaded: bool)
      modifies this
      ensures loaded == isFile
      ensures !isFile ==> vars == old(vars)
      ensures isFile ==> vars == LoadEntries(old(vars), ParsedLines(lines), 0)
    {
      if !isFile {
        return false;
      }
      var i := 0;
      while i < |lines|
        invariant 0 <= i <= |lines|
        invariant LoadEntries(vars, ParsedLines(lines), i) == LoadEntries(old(vars), ParsedLines(lines), 0)
      {
        LoadLine(lines[i]);
        i := i + 1;
      }
      return true;
    }
  }
}
