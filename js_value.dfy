/** JavaScript values as the client sees them in JSON bodies and form state,
    with the truthiness rule (`''`, `0`, `false`, `null` and `undefined` are
    falsy), `a || b`, `String(v)` and plain objects as maps. */
module JsValue {
  import opened Wrappers
  import opened JsText

  /** A JSON-like value. Numbers are integers; an array is an array of
      strings (the only arrays the client builds or reads). */
  datatype JsVal = JStr(s: string) | JNum(n: int) | JBool(b: bool) | JNull | JUndef | JArr(items: seq<string>)

  /** A plain object: property name to value. A missing key reads as `undefined`. */
  type Obj = map<string, JsVal>

  predicate Truthy(v: JsVal) {
    match v
    case JStr(s) => s != ""
    case JNum(n) => n != 0
    case JBool(b) => b
    case JNull => false
    case JUndef => false
    case JArr(_) => true
  }

  /** `a || b`: the first operand when it is truthy, otherwise the second. */
  function Or(a: JsVal, b: JsVal): (r: JsVal)
    ensures Truthy(a) ==> r == a
    ensures !Truthy(a) ==> r == b
  {
    if Truthy(a) then a else b
  }

  /** `obj[key]`. */
  function Get(o: Obj, key: string): (v: JsVal)
    ensures key !in o ==> v == JUndef
  {
    if key in o then o[key] else JUndef
  }

  /** `String(v)`, also what a template literal `${v}` inserts. */
  function ToText(v: JsVal): string {
    match v
    case JStr(s) => s
    case JNum(n) => IntToText(n)
    case JBool(b) => if b then "true" else "false"
    case JNull => "null"
    case JUndef => "undefined"
    case JArr(items) => Join(items, ",")
  }

  /** An optional string field is "present" when it is truthy: there and not empty. */
  predicate Present(o: Option<string>) {
    o.Some? && o.value != ""
  }

  /** `field || fallback` for an optional string field. */
  function TextOr(o: Option<string>, fallback: string): (r: string)
    ensures Present(o) ==> r == o.value
    ensures !Present(o) ==> r == fallback
  {
    if Present(o) then o.value else fallback
  }

  /** An optional number is truthy when it is there and not 0. */
  predicate NonZero(o: Option<int>) {
    o.Some? && o.value != 0
  }

  /** The first present candidate, else the fallback: the reference meaning of
      a chain `a || b || ... || fallback` over optional string fields. */
  function FirstPresent(cands: seq<Option<string>>, fallback: string): (r: string)
    ensures (exists i :: 0 <= i < |cands| && Present(cands[i])) ==>
              exists i :: 0 <= i < |cands| && Present(cands[i]) && r == cands[i].value
                          && forall j :: 0 <= j < i ==> !Present(cands[j])
    ensures (forall i :: 0 <= i < |cands| ==> !Present(cands[i])) ==> r == fallback
    decreases |cands|
  {
    if |cands| == 0 then fallback
    else if Present(cands[0]) then cands[0].value
    else
      var r := FirstPresent(cands[1..], fallback);
      assert forall i :: 1 <= i < |cands| ==> cands[i] == cands[1..][i - 1];
      r
  }

  /** The object without the properties whose value `drop` selects. */
  function Pruned(o: Obj, drop: JsVal -> bool): (r: Obj)
  {
    map k | k in o && !drop(o[k]) :: o[k]
  }

  /** `Object.keys(o).forEach(k => { if (drop(o[k])) delete o[k]; })`: the
      loop the job-search pages run over their query parameters. */
  method Prune(o: Obj, drop: JsVal -> bool) returns (r: Obj)
    ensures r == Pruned(o, drop)
  {
    r := o;
    var keys := o.Keys;
    while keys != {}
      invariant keys <= o.Keys
      invariant forall k :: k in r ==> k in o && r[k] == o[k]
      invariant forall k :: k in keys ==> k in r
      invariant forall k :: k in o && k !in keys ==> (k in r <==> !drop(o[k]))
      decreases |keys|
    {
      var k :| k in keys;
      if drop(r[k]) {
        r := r - {k};
      }
      keys := keys - {k};
    }
  }

  /** The query-parameter rule shared by the job-search pages: a kept
      property is unchanged, and a property is kept exactly when `drop` does
      not select its value. */
  lemma PrunedKeeps(o: Obj, drop: JsVal -> bool, k: string)
    ensures k in Pruned(o, drop) <==> k in o && !drop(o[k])
    ensures k in Pruned(o, drop) ==> Pruned(o, drop)[k] == o[k]
  {
  }
}

/** Order-preserving sequence helpers: `Array.prototype.filter` and the
    "drop null entries" idiom. */
module Seqs {
  import opened Wrappers

  /** `xs.filter(p)`: exactly the elements satisfying `p`, in order. */
  function Filter<T(!new)>(xs: seq<T>, p: T -> bool): (r: seq<T>)
    ensures |r| <= |xs|
    ensures forall x :: x in r <==> x in xs && p(x)
    decreases |xs|
  {
    if |xs| == 0 then []
    else
      var rest := Filter(xs[1..], p);
      assert forall x :: x in xs <==> x == xs[0] || x in xs[1..] by {
        assert xs == [xs[0]] + xs[1..];
      }
      if p(xs[0]) then [xs[0]] + rest else rest
  }

  /** Filtering by a predicate and by its negation splits the list: the two
      counts add up to its length. */
  lemma {:induction false} FilterSplit<T(!new)>(xs: seq<T>, p: T -> bool, q: T -> bool)
    requires forall x :: q(x) == !p(x)
    ensures |Filter(xs, p)| + |Filter(xs, q)| == |xs|
    decreases |xs|
  {
    if |xs| > 0 {
      FilterSplit(xs[1..], p, q);
    }
  }

  /** A filter that keeps every element keeps the list as it is. */
  lemma {:induction false} FilterKeepsAll<T(!new)>(xs: seq<T>, p: T -> bool)
    requires forall i :: 0 <= i < |xs| ==> p(xs[i])
    ensures Filter(xs, p) == xs
    decreases |xs|
  {
    if |xs| > 0 {
      FilterKeepsAll(xs[1..], p);
      assert xs == [xs[0]] + xs[1..];
    }
  }

  /** Filtering distributes over concatenation (the order of the kept
      elements is the order of the input). */
  lemma {:induction false} FilterAppend<T(!new)>(xs: seq<T>, ys: seq<T>, p: T -> bool)
    ensures Filter(xs + ys, p) == Filter(xs, p) + Filter(ys, p)
    decreases |xs|
  {
    if |xs| == 0 {
      assert xs + ys == ys;
    } else {
      assert (xs + ys)[1..] == xs[1..] + ys;
      FilterAppend(xs[1..], ys, p);
    }
  }

  /** `xs.filter(x => x !== null && x !== undefined)`: the present entries, in order. */
  function Compact<T(!new)>(xs: seq<Option<T>>): (r: seq<T>)
    ensures |r| <= |xs|
    ensures forall x :: x in r <==> Some(x) in xs
    decreases |xs|
  {
    if |xs| == 0 then []
    else
      var rest := Compact(xs[1..]);
      assert forall o :: o in xs <==> o == xs[0] || o in xs[1..] by {
        assert xs == [xs[0]] + xs[1..];
      }
      match xs[0]
      case Some(x) => [x] + rest
      case None => rest
  }

  /** Dropping null entries commutes with concatenation: the order of what
      remains is the order of the input. */
  lemma {:induction false} CompactAppend<T(!new)>(xs: seq<Option<T>>, ys: seq<Option<T>>)
    ensures Compact(xs + ys) == Compact(xs) + Compact(ys)
    decreases |xs|
  {
    if |xs| == 0 {
      assert xs + ys == ys;
    } else {
      assert (xs + ys)[1..] == xs[1..] + ys;
      CompactAppend(xs[1..], ys);
    }
  }

  /** A list with no null entry comes through unchanged. */
  lemma {:induction false} CompactOfPresent<T(!new)>(ys: seq<T>)
    ensures Compact(seq(|ys|, i requires 0 <= i < |ys| => Some(ys[i]))) == ys
    decreases |ys|
  {
    if |ys| > 0 {
      var xs := seq(|ys|, i requires 0 <= i < |ys| => Some(ys[i]));
      CompactOfPresent(ys[1..]);
      assert xs[1..] == seq(|ys[1..]|, i requires 0 <= i < |ys[1..]| => Some(ys[1..][i]));
      assert ys == [ys[0]] + ys[1..];
    }
  }

  /** The number of null entries dropped is the length difference. */
  function NullCount<T(!new)>(xs: seq<Option<T>>): nat
    decreases |xs|
  {
    if |xs| == 0 then 0 else (if xs[0].None? then 1 else 0) + NullCount(xs[1..])
  }

  lemma {:induction false} CompactDropsNulls<T(!new)>(xs: seq<Option<T>>)
    ensures |Compact(xs)| + NullCount(xs) == |xs|
    decreases |xs|
  {
    if |xs| > 0 {
      CompactDropsNulls(xs[1..]);
    }
  }
}
