/**
 * A decoded JSON document as the ALDI and Costco importers see it, with Python's
 * truthiness, `dict.get`, and the conversions `int(x)` and `Decimal(str(x))` they apply
 * to its values. Numbers are kept as exact decimals.
 */
module Json {
  import opened Wrappers
  import opened Text
  import opened Numbers

  datatype Json =
    | Null
    | Bool(b: bool)
    | Num(n: Dec)
    | Str(s: string)
    | Arr(items: seq<Json>)
    | Obj(fields: map<string, Json>)

  /** Python's `bool(x)`: null, false, zero and empty values are false. */
  predicate AsBool(j: Json)
  {
    match j
    case Null => false
    case Bool(b) => b
    case Num(d) => d.coef != 0
    case Str(s) => s != ""
    case Arr(items) => items != []
    case Obj(fields) => fields != map[]
  }

  /** `j[key]` on an object; `None` where Python raises (not an object, or no such key). */
  function Member(j: Json, key: string): (r: Option<Json>)
    ensures r.Some? <==> j.Obj? && key in j.fields
  {
    if j.Obj? && key in j.fields then Some(j.fields[key]) else None
  }

  /** `j.get(key, default)` on an object. */
  function GetOr(j: Json, key: string, default: Json): (r: Json)
    requires j.Obj?
    ensures key in j.fields ==> r == j.fields[key]
    ensures key !in j.fields ==> r == default
  {
    if key in j.fields then j.fields[key] else default
  }

  /** `isinstance(j, dict) and all(k in j for k in keys)`. */
  predicate HasKeys(j: Json, keys: seq<string>)
  {
    j.Obj? && forall k :: 0 <= k < |keys| ==> keys[k] in j.fields
  }

  /** The text of a string value; other values have none here. */
  function StrOf(j: Option<Json>): (r: Option<string>)
    ensures r.Some? <==> j.Some? && j.value.Str?
  {
    if j.Some? && j.value.Str? then Some(j.value.s) else None
  }

  /**
   * `Decimal(str(x))`: a number is itself, a string is parsed; `None`, booleans and
   * containers are rejected, as `Decimal` rejects their text.
   */
  function DecimalOf(j: Option<Json>): Option<Dec>
  {
    match j
    case Some(Num(d)) => Some(d)
    case Some(Str(s)) => ParseDecimal(s)
    case _ => None
  }

  /** The integer part of a decimal, rounded toward zero as `int(x)` does. */
  function Truncate(d: Dec): int
  {
    if d.coef >= 0 then d.coef / Pow10(d.places)
    else -((-d.coef) / Pow10(d.places))
  }

  /** Integer division of naturals rounds the real quotient down. */
  lemma QuotientBounds(c: nat, p: nat)
    requires p > 0
    ensures (c / p) as real <= c as real / p as real < (c / p) as real + 1.0
  {
    var q, r := c / p, c % p;
    assert c == q * p + r && 0 <= r < p;
    var pr := p as real;
    assert c as real == q as real * pr + r as real;
    assert c as real / pr == q as real + r as real / pr;
    assert 0.0 <= r as real / pr < 1.0;
  }

  /** `int(x)` truncates toward zero: it never moves away from zero, and by less than one. */
  lemma TruncateBounds(d: Dec)
    ensures d.Value() >= 0.0 ==> Truncate(d) as real <= d.Value() < Truncate(d) as real + 1.0
    ensures d.Value() < 0.0 ==> Truncate(d) as real - 1.0 < d.Value() <= Truncate(d) as real
  {
    ValueIsQuotient(d);
    var p := Pow10(d.places);
    var c: nat := if d.coef >= 0 then d.coef else -d.coef;
    var v := c as real / p as real;
    QuotientBounds(c, p);
    if d.coef >= 0 {
      assert d.Value() == v && Truncate(d) == c / p;
    } else {
      NegatedQuotient(c as real, p as real);
      assert d.Value() == -v && Truncate(d) == -(c / p);
    }
  }

  lemma NegatedQuotient(x: real, p: real)
    requires x > 0.0 && p > 0.0
    ensures (-x) / p == -(x / p) && x / p > 0.0
  {
  }

  /**
   * `int(x)`: a number is truncated, a string must be an integer literal, a boolean is 0
   * or 1; `None` and containers are rejected.
   */
  function IntOf(j: Option<Json>): Option<int>
  {
    match j
    case Some(Num(d)) => Some(Truncate(d))
    case Some(Str(s)) => ParseInt(s)
    case Some(Bool(b)) => Some(if b then 1 else 0)
    case _ => None
  }

  /** The value of a number with no fractional part, which JSON integers are. */
  function WholeNumber(j: Option<Json>): (r: Option<int>)
    ensures r.Some? ==> j.Some? && j.value.Num? && r.value as real == j.value.n.Value()
  {
    match j
    case Some(Num(d)) =>
      if d.coef % Pow10(d.places) == 0 then
        ValueIsQuotient(d);
        var q := d.coef / Pow10(d.places);
        assert d.coef == q * Pow10(d.places);
        assert d.coef as real / Pow10(d.places) as real == q as real;
        Some(q)
      else None
    case _ => None
  }

  /** `abs(d)`, keeping the exponent. */
  function AbsDec(d: Dec): (r: Dec)
    ensures r.coef >= 0 && r.places == d.places
  {
    Dec(if d.coef < 0 then -d.coef else d.coef, d.places)
  }

  /** The value of `abs(d)` is the absolute value of `d`'s. */
  lemma AbsDecValue(d: Dec)
    ensures AbsDec(d).Value() == (if d.Value() < 0.0 then -d.Value() else d.Value())
  {
    ValueIsQuotient(d);
    ValueIsQuotient(AbsDec(d));
  }

  /** `s[i:j]` on a string, with Python's clamping of out-of-range bounds. */
  function Slice(s: string, i: nat, j: nat): (r: string)
    ensures |r| <= |s|
    ensures i <= j <= |s| ==> r == s[i..j]
    ensures |s| <= i ==> r == []
  {
    var lo := if i <= |s| then i else |s|;
    var hi := if j <= |s| then j else |s|;
    if lo <= hi then s[lo..hi] else []
  }

  /**
   * A list comprehension whose conversion may raise: every element converted, in order,
   * or `None` when one of them fails.
   */
  function ConvertAll<T>(xs: seq<Json>, f: Json -> Option<T>): (r: Option<seq<T>>)
    ensures r.Some? ==> |r.value| == |xs|
  {
    if xs == [] then Some([])
    else
      match (ConvertAll(xs[..|xs| - 1], f), f(xs[|xs| - 1]))
      case (Some(front), Some(last)) => Some(front + [last])
      case _ => None
  }

  /** The list converts exactly when every element does. */
  lemma {:induction false} ConvertAllSucceeds<T>(xs: seq<Json>, f: Json -> Option<T>)
    ensures ConvertAll(xs, f).Some? <==> forall i :: 0 <= i < |xs| ==> f(xs[i]).Some?
  {
    if xs != [] {
      var n := |xs| - 1;
      ConvertAllSucceeds(xs[..n], f);
      assert forall i :: 0 <= i < n ==> xs[..n][i] == xs[i];
    }
  }

  /** Each converted element is the conversion of the element at the same position. */
  lemma {:induction false} ConvertAllInOrder<T>(xs: seq<Json>, f: Json -> Option<T>, i: nat)
    requires ConvertAll(xs, f).Some? && i < |xs|
    ensures f(xs[i]) == Some(ConvertAll(xs, f).value[i])
  {
    var n := |xs| - 1;
    if i < n {
      ConvertAllInOrder(xs[..n], f, i);
      assert xs[..n][i] == xs[i];
    }
  }

  /**
   * The elements a `for` loop visits in a JSON value: a list's elements; an empty object
   * or string visits nothing; `None` where the loop body would raise on what it visits
   * (a non-empty object's keys, a string's characters) or the value is not iterable.
   */
  function Elements(j: Json): (r: Option<seq<Json>>)
    ensures j.Arr? ==> r == Some(j.items)
  {
    match j
    case Arr(items) => Some(items)
    case Obj(fields) => if fields == map[] then Some([]) else None
    case Str(s) => if s == "" then Some([]) else None
    case _ => None
  }

  /**
   * A loop that converts each element in turn, leaves out the ones whose conversion says
   * to skip them (`Some(None)`) and stops at the first that raises (`None`): the kept
   * results, in order.
   */
  function Gather<T>(xs: seq<Json>, f: Json -> Option<Option<T>>): (r: Option<seq<T>>)
    ensures r.Some? ==> |r.value| <= |xs|
  {
    if xs == [] then Some([])
    else
      var n := |xs| - 1;
      match (Gather(xs[..n], f), f(xs[n]))
      case (Some(front), Some(Some(x))) => Some(front + [x])
      case (Some(front), Some(None)) => Some(front)
      case _ => None
  }

  /** One more element: the result for a prefix extended by the next element. */
  lemma GatherStep<T>(xs: seq<Json>, i: nat, f: Json -> Option<Option<T>>)
    requires i < |xs|
    ensures Gather(xs[..i + 1], f)
      == match (Gather(xs[..i], f), f(xs[i]))
         case (Some(front), Some(Some(x))) => Some(front + [x])
         case (Some(front), Some(None)) => Some(front)
         case _ => None
  {
    assert xs[..i + 1][..i] == xs[..i];
  }

  /** Once a prefix fails, the whole loop fails. */
  lemma {:induction false} GatherNoneStays<T>(xs: seq<Json>, k: nat, f: Json -> Option<Option<T>>)
    requires k <= |xs| && Gather(xs[..k], f).None?
    ensures Gather(xs, f).None?
    decreases |xs| - k
  {
    if k < |xs| {
      GatherStep(xs, k, f);
      GatherNoneStays(xs, k + 1, f);
    } else {
      assert xs[..k] == xs;
    }
  }

  /** When the loop succeeds, every element converted and every kept result is present. */
  lemma {:induction false} GatherKeepsAll<T>(xs: seq<Json>, f: Json -> Option<Option<T>>, i: nat)
    requires Gather(xs, f).Some? && i < |xs|
    ensures f(xs[i]).Some?
    ensures f(xs[i]).value.Some? ==> f(xs[i]).value.value in Gather(xs, f).value
  {
    var n := |xs| - 1;
    if i < n {
      assert xs[..n][i] == xs[i];
      GatherKeepsAll(xs[..n], f, i);
    }
  }

  /** Every result the loop keeps is the conversion of one of the elements. */
  lemma {:induction false} GatherFromElements<T>(xs: seq<Json>, f: Json -> Option<Option<T>>, j: nat)
    requires Gather(xs, f).Some? && j < |Gather(xs, f).value|
    ensures exists i :: 0 <= i < |xs| && f(xs[i]) == Some(Some(Gather(xs, f).value[j]))
  {
    var n := |xs| - 1;
    var front := Gather(xs[..n], f).value;
    if j < |front| {
      GatherFromElements(xs[..n], f, j);
      var i :| 0 <= i < n && f(xs[..n][i]) == Some(Some(front[j]));
      assert xs[..n][i] == xs[i];
    } else {
      assert f(xs[n]) == Some(Some(Gather(xs, f).value[j]));
    }
  }
}
