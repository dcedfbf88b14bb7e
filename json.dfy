/**
 * JSON values as the translator sees them after `json.loads`, Python dictionaries
 * as ordered key/value sequences, and the text renderings the decompiler uses.
 */
module JsonData {
  import opened Wrappers
  import opened Strings

  /**
   * A Python dictionary keyed by strings. Insertion order is kept, as in Python;
   * assigning to an existing key keeps the key where it is.
   */
  type Dict<V> = seq<(string, V)>

  /** A JSON document without floating-point numbers. */
  datatype Json =
    | JNull
    | JBool(b: bool)
    | JInt(i: int)
    | JStr(s: string)
    | JList(items: seq<Json>)
    | JObj(fields: Dict<Json>)

  function Keys<V>(d: Dict<V>): (r: seq<string>)
    ensures |r| == |d|
    ensures forall i :: 0 <= i < |d| ==> r[i] == d[i].0
  {
    if d == [] then [] else [d[0].0] + Keys(d[1..])
  }

  /** `d.get(k)`: the value stored under `k`, if any. */
  function Get<V>(d: Dict<V>, k: string): (r: Option<V>)
    ensures r.Some? <==> k in Keys(d)
  {
    if d == [] then None
    else if d[0].0 == k then Some(d[0].1)
    else Get(d[1..], k)
  }

  /** The position of the entry `d.get(k)` reads. */
  function KeyIndex<V>(d: Dict<V>, k: string): (r: Option<nat>)
    ensures r.Some? ==> r.value < |d| && d[r.value].0 == k && Get(d, k) == Some(d[r.value].1)
    ensures r.None? <==> Get(d, k).None?
  {
    if d == [] then None
    else if d[0].0 == k then Some(0)
    else
      var i :- KeyIndex(d[1..], k);
      Some(i + 1)
  }

  /** Looking up a key in a dictionary with one more entry at the end. */
  lemma {:induction false} GetAppend<V>(d: Dict<V>, k: string, v: V, k': string)
    ensures Get(d + [(k, v)], k') == if Get(d, k').Some? then Get(d, k') else if k' == k then Some(v) else None
  {
    if d != [] {
      assert (d + [(k, v)])[1..] == d[1..] + [(k, v)];
      GetAppend(d[1..], k, v, k');
    }
  }

  /** `d[k] = v` */
  function Put<V>(d: Dict<V>, k: string, v: V): (r: Dict<V>)
    ensures Get(r, k) == Some(v)
    ensures forall k' :: k' != k ==> Get(r, k') == Get(d, k')
  {
    if d == [] then [(k, v)]
    else if d[0].0 == k then [(k, v)] + d[1..]
    else [d[0]] + Put(d[1..], k, v)
  }

  /** `d[k] = v` keeps the order of the keys, and adds a new key at the end. */
  lemma {:induction false} PutKeys<V>(d: Dict<V>, k: string, v: V)
    ensures k in Keys(d) ==> Keys(Put(d, k, v)) == Keys(d)
    ensures k !in Keys(d) ==> Keys(Put(d, k, v)) == Keys(d) + [k]
  {
    if d != [] && d[0].0 != k {
      PutKeys(d[1..], k, v);
      var r := Put(d, k, v);
      assert r[1..] == Put(d[1..], k, v);
      assert Keys(r) == [d[0].0] + Keys(r[1..]);
    } else if d != [] {
      var r := Put(d, k, v);
      assert r[1..] == d[1..];
      assert Keys(r) == [k] + Keys(d[1..]);
    }
  }

  /** `d.pop(k)` for a key that is present: the dictionary without `k`. */
  function Remove<V>(d: Dict<V>, k: string): (r: Dict<V>)
    ensures forall k' :: k' != k ==> Get(r, k') == Get(d, k')
    ensures |r| <= |d|
  {
    if d == [] then []
    else if d[0].0 == k then d[1..]
    else [d[0]] + Remove(d[1..], k)
  }

  /** Every key occurs once, as in any Python dictionary. */
  predicate DistinctKeys<V>(d: Dict<V>) {
    forall i, j :: 0 <= i < j < |d| ==> d[i].0 != d[j].0
  }

  lemma {:induction false} PutDistinct<V>(d: Dict<V>, k: string, v: V)
    requires DistinctKeys(d)
    ensures DistinctKeys(Put(d, k, v))
  {
    PutKeys(d, k, v);
    var r := Put(d, k, v);
    var kr := Keys(r);
    assert forall i, j :: 0 <= i < j < |r| ==> kr[i] == r[i].0 && kr[j] == r[j].0;
    if k in Keys(d) {
      assert Keys(r) == Keys(d);
    } else {
      assert Keys(r) == Keys(d) + [k];
      forall i, j | 0 <= i < j < |r| ensures r[i].0 != r[j].0 {
        if j == |d| {
          assert kr[i] == Keys(d)[i];
        } else {
          assert kr[i] == Keys(d)[i] && kr[j] == Keys(d)[j];
        }
      }
    }
  }

  /** `d.pop(k)` on a dictionary leaves no `k` behind. */
  lemma {:induction false} RemoveDistinct<V>(d: Dict<V>, k: string)
    requires DistinctKeys(d)
    ensures Get(Remove(d, k), k).None?
    ensures DistinctKeys(Remove(d, k))
  {
    if d != [] {
      var t := d[1..];
      assert DistinctKeys(t) by {
        forall i, j | 0 <= i < j < |t| ensures t[i].0 != t[j].0 {
          assert t[i] == d[i + 1] && t[j] == d[j + 1];
        }
      }
      if d[0].0 == k {
        assert k !in Keys(t) by {
          forall i | 0 <= i < |Keys(t)| ensures Keys(t)[i] != k {
            assert t[i] == d[i + 1];
          }
        }
      } else {
        RemoveDistinct(t, k);
        var rt := Remove(t, k);
        var r := [d[0]] + rt;
        assert Remove(d, k) == r;
        assert r[1..] == rt;
        forall i, j | 0 <= i < j < |r| ensures r[i].0 != r[j].0 {
          if i == 0 {
            assert r[j] == rt[j - 1];
            var kj := r[j].0;
            assert Keys(rt)[j - 1] == kj;
            assert Get(t, kj).Some?;
            var m :| 0 <= m < |Keys(t)| && Keys(t)[m] == kj;
            assert t[m] == d[m + 1];
          } else {
            assert r[i] == rt[i - 1] && r[j] == rt[j - 1];
          }
        }
      }
    }
  }

  /** Python truthiness of a dictionary or list: `not d` */
  predicate IsEmptyContainer(j: Json) {
    (j.JObj? && j.fields == []) || (j.JList? && j.items == [])
  }

  /**
   * The text functions of the `json` module and of Python's `str`/`repr` on
   * containers, passed in rather than re-implemented:
   *  - `loads`: `json.loads`, or the text of the `JSONDecodeError` it raises;
   *  - `dumps`: `json.dumps(v, ensure_ascii=False)` (with `separators=(",", ":")`
   *    for containers);
   *  - `repr`: `str(v)` of a Python list or dict.
   */
  datatype Codec = Codec(loads: string -> Result<Json>, dumps: Json -> string, repr: Json -> string)

  /** `str(v)` / `f"{v}"` for a value that came out of `json.loads`. */
  function PyStr(codec: Codec, j: Json): (r: string)
    ensures j.JStr? ==> r == j.s
    ensures j.JInt? && j.i >= 0 ==> IsDigitString(r) && DigitsValue(r) == j.i
    ensures j.JInt? && j.i < 0 ==> |r| > 1 && r[0] == '-' && IsDigitString(r[1..]) && DigitsValue(r[1..]) == -j.i
    ensures j.JNull? ==> r == "None"
    ensures j.JBool? ==> r == (if j.b then "True" else "False")
  {
    match j
    case JNull => "None"
    case JBool(b) => if b then "True" else "False"
    case JInt(i) => IntToString(i)
    case JStr(s) => s
    case _ => codec.repr(j)
  }

  /** No character that JSON escapes, and no line break: `json.dumps` only adds quotes. */
  predicate PlainText(s: string) {
    forall i :: 0 <= i < |s| ==> s[i] != '"' && s[i] != '\\' && s[i] as int >= 32 && !IsLineBreak(s[i])
  }

  /**
   * What `json.dumps` does to a string without characters that need escaping.
   * Round trips through the parser's unquoting rely on this and state it as a
   * precondition.
   */
  ghost predicate QuotesPlainly(codec: Codec) {
    forall s :: PlainText(s) ==> codec.dumps(JStr(s)) == "\"" + s + "\""
  }

  /** The number of constructors in a value; every rewrite in this model is measured by it. */
  function Size(j: Json): (r: nat)
    ensures r >= 1
  {
    match j
    case JList(items) => 1 + ItemsSize(items)
    case JObj(fields) => 1 + FieldsSize(fields)
    case _ => 1
  }

  function ItemsSize(items: seq<Json>): nat {
    if items == [] then 0 else Size(items[0]) + ItemsSize(items[1..])
  }

  function FieldsSize(fields: Dict<Json>): nat {
    if fields == [] then 0
    else
      var p := fields[0];
      assert p in fields && p.1 < p;
      Size(p.1) + FieldsSize(fields[1..])
  }

  lemma {:induction false} ItemSizeBound(items: seq<Json>, i: nat)
    requires i < |items|
    ensures Size(items[i]) < 1 + ItemsSize(items)
  {
    if i > 0 {
      ItemSizeBound(items[1..], i - 1);
    }
  }

  lemma {:induction false} FieldSizeBound(fields: Dict<Json>, i: nat)
    requires i < |fields|
    ensures Size(fields[i].1) < 1 + FieldsSize(fields)
  {
    if i > 0 {
      FieldSizeBound(fields[1..], i - 1);
    }
  }
}
