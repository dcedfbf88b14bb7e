/**
 * The safe rewrites applied to a request body that the service rejected:
 * `_walk`, `resolve_now` (with the timestamp passed in) and `rewrite_on_error`.
 */
module Rewrite {
  import opened Strings
  import opened JsonData

  /** A dictionary-value rewrite that never grows a value, so that walking its results ends. */
  ghost predicate NonGrowing(fn: (string, Json) -> Json) {
    forall k, v :: Size(fn(k, v)) <= Size(v)
  }

  /**
   * `_walk(obj, fn)`: every dictionary value is replaced by `fn(key, value)` and the
   * result is walked in turn; list elements are walked without `fn`; scalars stay.
   */
  function Walk(j: Json, fn: (string, Json) -> Json): (r: Json)
    requires NonGrowing(fn)
    ensures j.JObj? <==> r.JObj?
    ensures j.JList? <==> r.JList?
    ensures !j.JObj? && !j.JList? ==> r == j
    ensures j.JObj? ==> Keys(r.fields) == Keys(j.fields)
    ensures j.JList? ==> |r.items| == |j.items|
    decreases Size(j)
  {
    match j
    case JObj(fields) =>
      JObj(seq(|fields|, i requires 0 <= i < |fields| =>
        (FieldSizeBound(fields, i);
         (fields[i].0, Walk(fn(fields[i].0, fields[i].1), fn)))))
    case JList(items) =>
      JList(seq(|items|, i requires 0 <= i < |items| =>
        (ItemSizeBound(items, i);
         Walk(items[i], fn))))
    case _ => j
  }

  /** `v.strip().lower() == "now()"` */
  predicate IsNowText(s: string) {
    Lower(Strip(s)) == "now()"
  }

  /** `replace` inside `resolve_now`: a `now()` string becomes `now_ms`, anything else stays. */
  function ReplaceNow(nowMs: int): (fn: (string, Json) -> Json)
    ensures NonGrowing(fn)
  {
    (k: string, v: Json) => if v.JStr? && IsNowText(v.s) then JInt(nowMs) else v
  }

  /**
   * `resolve_now(body, now_ms=now_ms)`. The deep copy the source takes first only
   * protects the caller's body from mutation; a function never mutates its argument.
   */
  function ResolveNow(body: Json, nowMs: int): (r: Json)
    ensures !body.JObj? && !body.JList? ==> r == body
    ensures body.JList? ==> r.JList? && |r.items| == |body.items|
                            && forall i :: 0 <= i < |body.items| && body.items[i].JStr? ==> r.items[i] == body.items[i]
    ensures body.JObj? ==> r.JObj? && Keys(r.fields) == Keys(body.fields)
    ensures body.JObj? ==> forall i :: 0 <= i < |body.fields| && body.fields[i].1.JStr? ==>
                             r.fields[i].1 == if IsNowText(body.fields[i].1.s) then JInt(nowMs) else body.fields[i].1
  {
    Walk(body, ReplaceNow(nowMs))
  }

  /** The error texts on which `rewrite_on_error` resolves `now()`. */
  predicate MentionsTime(errorText: string) {
    var lowered := Lower(errorText);
    Contains(lowered, "now()") || Contains(lowered, "timeseries") || Contains(lowered, "timestamp")
  }

  /** `rewrite_on_error`: resolve `now()` when the error mentions time, otherwise keep the body. */
  function RewriteOnError(body: Json, errorText: string, nowMs: int): (r: Json)
    ensures MentionsTime(errorText) ==> r == ResolveNow(body, nowMs)
    ensures !MentionsTime(errorText) ==> r == body
  {
    if MentionsTime(errorText) then ResolveNow(body, nowMs) else body
  }

  // ---------------------------------------------------------------------------
  // what resolve_now leaves behind

  /** No dictionary value anywhere in `j` is a `now()` string; list elements are not looked at. */
  predicate NowFree(j: Json)
    decreases Size(j)
  {
    match j
    case JObj(fields) =>
      forall i :: 0 <= i < |fields| ==>
        !(fields[i].1.JStr? && IsNowText(fields[i].1.s))
        && (FieldSizeBound(fields, i); NowFree(fields[i].1))
    case JList(items) =>
      forall i :: 0 <= i < |items| ==> (ItemSizeBound(items, i); NowFree(items[i]))
    case _ => true
  }

  /** After `resolve_now` no dictionary value reads `now()`. */
  lemma {:induction false} ResolveNowIsNowFree(j: Json, nowMs: int)
    ensures NowFree(ResolveNow(j, nowMs))
    decreases Size(j)
  {
    var fn := ReplaceNow(nowMs);
    var r := ResolveNow(j, nowMs);
    match j
    case JObj(fields) =>
      forall i | 0 <= i < |fields|
        ensures !(r.fields[i].1.JStr? && IsNowText(r.fields[i].1.s)) && NowFree(r.fields[i].1)
      {
        FieldSizeBound(fields, i);
        var v := fn(fields[i].0, fields[i].1);
        assert r.fields[i].1 == Walk(v, fn);
        ResolveNowIsNowFree(v, nowMs);
      }
    case JList(items) =>
      forall i | 0 <= i < |items| ensures NowFree(r.items[i]) {
        ItemSizeBound(items, i);
        assert r.items[i] == Walk(items[i], fn);
        ResolveNowIsNowFree(items[i], nowMs);
      }
    case _ =>
  }

  /** `resolve_now` changes exactly the trees that hold a `now()` dictionary value. */
  lemma {:induction false} ResolveNowFixes(j: Json, nowMs: int)
    ensures ResolveNow(j, nowMs) == j <==> NowFree(j)
    decreases Size(j)
  {
    var fn := ReplaceNow(nowMs);
    var r := ResolveNow(j, nowMs);
    match j
    case JObj(fields) =>
      if NowFree(j) {
        forall i | 0 <= i < |fields| ensures r.fields[i] == fields[i] {
          FieldSizeBound(fields, i);
          assert fn(fields[i].0, fields[i].1) == fields[i].1;
          ResolveNowFixes(fields[i].1, nowMs);
        }
        assert r.fields == fields;
      } else {
        var i :| 0 <= i < |fields| && !(!(fields[i].1.JStr? && IsNowText(fields[i].1.s)) && NowFree(fields[i].1));
        FieldSizeBound(fields, i);
        if fields[i].1.JStr? && IsNowText(fields[i].1.s) {
          assert r.fields[i].1 == JInt(nowMs);
        } else {
          ResolveNowFixes(fields[i].1, nowMs);
          assert r.fields[i].1 == ResolveNow(fields[i].1, nowMs);
        }
        assert r.fields[i] != fields[i];
      }
    case JList(items) =>
      if NowFree(j) {
        forall i | 0 <= i < |items| ensures r.items[i] == items[i] {
          ItemSizeBound(items, i);
          ResolveNowFixes(items[i], nowMs);
        }
        assert r.items == items;
      } else {
        var i :| 0 <= i < |items| && !NowFree(items[i]);
        ItemSizeBound(items, i);
        ResolveNowFixes(items[i], nowMs);
        assert r.items[i] != items[i];
      }
    case _ =>
  }

  /**
   * `r` is `b` with every `now()` dictionary value, at any depth, replaced by `nowMs`:
   * the same containers, keys in the same order and lengths, and every other value equal.
   */
  predicate AgreesExceptNow(r: Json, b: Json, nowMs: int)
    decreases Size(b)
  {
    match b
    case JObj(fields) =>
      r.JObj? && |r.fields| == |fields|
      && forall i :: 0 <= i < |fields| ==>
           r.fields[i].0 == fields[i].0
           && if fields[i].1.JStr? && IsNowText(fields[i].1.s) then r.fields[i].1 == JInt(nowMs)
              else (FieldSizeBound(fields, i); AgreesExceptNow(r.fields[i].1, fields[i].1, nowMs))
    case JList(items) =>
      r.JList? && |r.items| == |items|
      && forall i :: 0 <= i < |items| ==> (ItemSizeBound(items, i); AgreesExceptNow(r.items[i], items[i], nowMs))
    case _ => r == b
  }

  /** `resolve_now` replaces the `now()` dictionary values, at every depth, and nothing else. */
  lemma {:induction false} ResolveNowAgrees(j: Json, nowMs: int)
    ensures AgreesExceptNow(ResolveNow(j, nowMs), j, nowMs)
    decreases Size(j)
  {
    var fn := ReplaceNow(nowMs);
    var r := ResolveNow(j, nowMs);
    match j
    case JObj(fields) =>
      forall i | 0 <= i < |fields| && !(fields[i].1.JStr? && IsNowText(fields[i].1.s))
        ensures AgreesExceptNow(r.fields[i].1, fields[i].1, nowMs)
      {
        FieldSizeBound(fields, i);
        assert fn(fields[i].0, fields[i].1) == fields[i].1;
        assert r.fields[i].1 == ResolveNow(fields[i].1, nowMs);
        ResolveNowAgrees(fields[i].1, nowMs);
      }
    case JList(items) =>
      forall i | 0 <= i < |items| ensures AgreesExceptNow(r.items[i], items[i], nowMs) {
        ItemSizeBound(items, i);
        assert r.items[i] == ResolveNow(items[i], nowMs);
        ResolveNowAgrees(items[i], nowMs);
      }
    case _ =>
  }

  /** At most one tree agrees with `b` except at its `now()` values: the description above is complete. */
  lemma {:induction false} AgreesExceptNowUnique(r1: Json, r2: Json, b: Json, nowMs: int)
    requires AgreesExceptNow(r1, b, nowMs) && AgreesExceptNow(r2, b, nowMs)
    ensures r1 == r2
    decreases Size(b)
  {
    match b
    case JObj(fields) =>
      forall i | 0 <= i < |fields| ensures r1.fields[i] == r2.fields[i] {
        FieldSizeBound(fields, i);
        if !(fields[i].1.JStr? && IsNowText(fields[i].1.s)) {
          AgreesExceptNowUnique(r1.fields[i].1, r2.fields[i].1, fields[i].1, nowMs);
        }
      }
      assert r1.fields == r2.fields;
    case JList(items) =>
      forall i | 0 <= i < |items| ensures r1.items[i] == r2.items[i] {
        ItemSizeBound(items, i);
        AgreesExceptNowUnique(r1.items[i], r2.items[i], items[i], nowMs);
      }
      assert r1.items == r2.items;
    case _ =>
  }

  /** With a fixed timestamp, resolving twice is resolving once. */
  lemma ResolveNowIdempotent(j: Json, nowMs: int)
    ensures ResolveNow(ResolveNow(j, nowMs), nowMs) == ResolveNow(j, nowMs)
  {
    ResolveNowIsNowFree(j, nowMs);
    ResolveNowFixes(ResolveNow(j, nowMs), nowMs);
  }

  /** The same containers with the same keys and lengths at every depth; scalars may differ. */
  predicate SameSkeleton(a: Json, b: Json)
    decreases Size(a)
  {
    match a
    case JObj(fields) =>
      b.JObj? && Keys(b.fields) == Keys(fields)
      && forall i :: 0 <= i < |fields| ==> (FieldSizeBound(fields, i); SameSkeleton(fields[i].1, b.fields[i].1))
    case JList(items) =>
      b.JList? && |b.items| == |items|
      && forall i :: 0 <= i < |items| ==> (ItemSizeBound(items, i); SameSkeleton(items[i], b.items[i]))
    case _ => !b.JObj? && !b.JList?
  }

  /** `resolve_now` keeps every dictionary key and every list length, at any depth: it adds no stage. */
  lemma {:induction false} ResolveNowSkeleton(j: Json, nowMs: int)
    ensures SameSkeleton(j, ResolveNow(j, nowMs))
    decreases Size(j)
  {
    var fn := ReplaceNow(nowMs);
    var r := ResolveNow(j, nowMs);
    match j
    case JObj(fields) =>
      forall i | 0 <= i < |fields| ensures SameSkeleton(fields[i].1, r.fields[i].1) {
        FieldSizeBound(fields, i);
        var v := fn(fields[i].0, fields[i].1);
        assert r.fields[i].1 == ResolveNow(v, nowMs);
        if v == fields[i].1 {
          ResolveNowSkeleton(v, nowMs);
        }
      }
    case JList(items) =>
      forall i | 0 <= i < |items| ensures SameSkeleton(items[i], r.items[i]) {
        ItemSizeBound(items, i);
        ResolveNowSkeleton(items[i], nowMs);
      }
    case _ =>
  }

  /**
   * `rewrite_on_error` changes the body exactly when the error mentions time and the
   * body holds a `now()` dictionary value, and never changes its shape.
   */
  lemma RewriteOnErrorEffect(body: Json, errorText: string, nowMs: int)
    ensures RewriteOnError(body, errorText, nowMs) == body <==> !MentionsTime(errorText) || NowFree(body)
    ensures SameSkeleton(body, RewriteOnError(body, errorText, nowMs))
    ensures NowFree(body) ==> NowFree(RewriteOnError(body, errorText, nowMs))
  {
    ResolveNowFixes(body, nowMs);
    ResolveNowSkeleton(body, nowMs);
    SkeletonRefl(body);
  }

  lemma {:induction false} SkeletonRefl(j: Json)
    ensures SameSkeleton(j, j)
    decreases Size(j)
  {
    match j
    case JObj(fields) =>
      forall i | 0 <= i < |fields| ensures SameSkeleton(fields[i].1, fields[i].1) {
        FieldSizeBound(fields, i);
        SkeletonRefl(fields[i].1);
      }
    case JList(items) =>
      forall i | 0 <= i < |items| ensures SameSkeleton(items[i], items[i]) {
        ItemSizeBound(items, i);
        SkeletonRefl(items[i]);
      }
    case _ =>
  }
}
