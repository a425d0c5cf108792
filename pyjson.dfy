/** Values as Python's `json` module returns them, and the Python operations
    the route endpoint applies to them, with the exceptions they raise. */
module PyJson {
  import opened Wrappers
  import PyText

  /** A decoded JSON document. An object keeps its members in document order;
      Python's dict keeps the last value of a repeated key, at the position
      of its first occurrence. */
  datatype Json =
    | JNull
    | JBool(b: bool)
    | JInt(i: int)
    | JFloat(f: real)
    | JStr(s: string)
    | JArr(items: seq<Json>)
    | JObj(fields: seq<(string, Json)>)

  /** The value of a Python expression, or `Raise` when evaluating it raises.
      The endpoint handles every exception of one `try` block alike, so the
      kind of exception is not kept. */
  datatype Py<+T> = Ok(value: T) | Raise {

    predicate IsFailure() {
      Raise?
    }

    function PropagateFailure<U>(): Py<U>
      requires Raise?
    {
      Raise
    }

    function Extract(): T
      requires Ok?
    {
      value
    }
  }

  /** Python's truth value of a decoded JSON value. */
  predicate Truthy(v: Json) {
    match v
    case JNull => false
    case JBool(b) => b
    case JInt(i) => i != 0
    case JFloat(f) => f != 0.0
    case JStr(s) => s != []
    case JArr(items) => items != []
    case JObj(fields) => fields != []
  }

  /** The values Python treats as false: `None`, `False`, zero, and the
      empty string, list and dict. */
  const FalsyValues: set<Json> := {JNull, JBool(false), JInt(0), JFloat(0.0), JStr(""), JArr([]), JObj([])}

  /** A value is true exactly when it is none of the seven false ones. */
  lemma TruthyIffNotFalsy(v: Json)
    ensures Truthy(v) <==> v !in FalsyValues
  {
    if v.JStr? && v.s != [] {
      assert v != JStr("") by {
        assert |v.s| != |""|;
      }
    }
    if v.JArr? && v.items != [] {
      assert v != JArr([]) by {
        assert |v.items| != 0;
      }
    }
    if v.JObj? && v.fields != [] {
      assert v != JObj([]) by {
        assert |v.fields| != 0;
      }
    }
  }

  /** The value a dict built from `fields` holds for `key`: the last binding. */
  function Lookup(fields: seq<(string, Json)>, key: string): (r: Option<Json>)
    ensures r.None? <==> forall i :: 0 <= i < |fields| ==> fields[i].0 != key
    ensures r.Some? ==> exists i :: 0 <= i < |fields| && fields[i] == (key, r.value) &&
                                    forall j :: i < j < |fields| ==> fields[j].0 != key
  {
    if fields == [] then None
    else if fields[|fields| - 1].0 == key then Some(fields[|fields| - 1].1)
    else
      var r := Lookup(fields[..|fields| - 1], key);
      LookupInit(fields, key, r);
      r
  }

  /** The step of `Lookup` past a last binding of another key. */
  lemma LookupInit(fields: seq<(string, Json)>, key: string, r: Option<Json>)
    requires fields != [] && fields[|fields| - 1].0 != key
    requires var init := fields[..|fields| - 1];
      (r.None? <==> forall i :: 0 <= i < |init| ==> init[i].0 != key) &&
      (r.Some? ==> exists i :: 0 <= i < |init| && init[i] == (key, r.value) &&
                              forall j :: i < j < |init| ==> init[j].0 != key)
    ensures r.None? <==> forall i :: 0 <= i < |fields| ==> fields[i].0 != key
    ensures r.Some? ==> exists i :: 0 <= i < |fields| && fields[i] == (key, r.value) &&
                                    forall j :: i < j < |fields| ==> fields[j].0 != key
  {
    var init := fields[..|fields| - 1];
    if r.Some? {
      var i :| 0 <= i < |init| && init[i] == (key, r.value) &&
               forall j :: i < j < |init| ==> init[j].0 != key;
      assert fields[i] == init[i];
      forall j | i < j < |fields| ensures fields[j].0 != key {
        if j < |init| {
          assert fields[j] == init[j];
        }
      }
    } else {
      forall i | 0 <= i < |fields| ensures fields[i].0 != key {
        if i < |init| {
          assert fields[i] == init[i];
        }
      }
    }
  }

  /** The keys of the dict built from `fields`, each once, in the order
      iteration visits them (first occurrence). */
  function Keys(fields: seq<(string, Json)>): (ks: seq<string>)
    ensures forall i, j :: 0 <= i < j < |ks| ==> ks[i] != ks[j]
    ensures forall k :: k in ks <==> exists i :: 0 <= i < |fields| && fields[i].0 == k
  {
    if fields == [] then []
    else
      var front := fields[..|fields| - 1];
      var ks := Keys(front);
      var k := fields[|fields| - 1].0;
      assert forall i :: 0 <= i < |front| ==> front[i] == fields[i];
      if k in ks then ks else ks + [k]
  }

  /** Index of the first member named `key`, or `|fields|` when there is none. */
  function FirstIndex(fields: seq<(string, Json)>, key: string): (i: nat)
    ensures i <= |fields|
    ensures i < |fields| ==> fields[i].0 == key
    ensures forall j :: 0 <= j < i ==> fields[j].0 != key
  {
    if fields == [] || fields[0].0 == key then 0 else 1 + FirstIndex(fields[1..], key)
  }

  /** Iterating a dict visits its keys in the order of their first
      occurrence. */
  lemma {:induction false} KeysInFirstOccurrenceOrder(fields: seq<(string, Json)>)
    ensures var ks := Keys(fields);
      forall i, j :: 0 <= i < j < |ks| ==> FirstIndex(fields, ks[i]) < FirstIndex(fields, ks[j])
  {
    if fields != [] {
      var front := fields[..|fields| - 1];
      KeysInFirstOccurrenceOrder(front);
      var ks, k := Keys(front), fields[|fields| - 1].0;
      var all := Keys(fields);
      assert all == if k in ks then ks else ks + [k];
      forall i, j | 0 <= i < j < |all| ensures FirstIndex(fields, all[i]) < FirstIndex(fields, all[j]) {
        assert all[i] == ks[i];
        FirstIndexOfPrefix(fields, front, ks[i]);
        if j < |ks| {
          assert all[j] == ks[j];
          FirstIndexOfPrefix(fields, front, ks[j]);
        } else {
          FirstIndexOfNewKey(fields, front, ks, k);
        }
      }
    }
  }

  /** The last member's key, when the prefix before it lacks it, is first
      found at the last position. */
  lemma FirstIndexOfNewKey(fields: seq<(string, Json)>, front: seq<(string, Json)>, ks: seq<string>, k: string)
    requires fields != [] && front == fields[..|fields| - 1] && ks == Keys(front)
    requires k == fields[|fields| - 1].0 && k !in ks
    ensures FirstIndex(fields, k) == |front|
  {
    forall i | 0 <= i < |front| ensures fields[i].0 != k {
      assert fields[i] == front[i];
    }
  }

  /** A key that occurs in a prefix is first found inside that prefix. */
  lemma FirstIndexOfPrefix(fields: seq<(string, Json)>, front: seq<(string, Json)>, key: string)
    requires |front| <= |fields| && front == fields[..|front|]
    requires key in Keys(front)
    ensures FirstIndex(fields, key) == FirstIndex(front, key) < |front|
  {
    var a := FirstIndex(front, key);
    assert a < |front|;
    assert fields[a] == front[a];
  }

  /** `v.get(key, default)`: only an object has `get`; anything else raises
      `AttributeError`. */
  function Get(v: Json, key: string, default: Json): (r: Py<Json>)
    ensures r.Ok? <==> v.JObj?
    ensures r.Ok? ==> (r.value == default || exists i :: 0 <= i < |v.fields| && v.fields[i] == (key, r.value))
  {
    match v
    case JObj(fields) =>
      Ok(match Lookup(fields, key) case Some(x) => x case None => default)
    case _ => Raise
  }

  /** On an object, `get` gives the default exactly when no member has the
      key, and otherwise the value of its last binding. */
  lemma GetCases(v: Json, key: string, default: Json)
    requires v.JObj?
    ensures (forall i :: 0 <= i < |v.fields| ==> v.fields[i].0 != key) ==> Get(v, key, default) == Ok(default)
    ensures forall i :: 0 <= i < |v.fields| && v.fields[i].0 == key &&
                        (forall j :: i < j < |v.fields| ==> v.fields[j].0 != key) ==>
                        Get(v, key, default) == Ok(v.fields[i].1)
  {
    forall i | 0 <= i < |v.fields| && v.fields[i].0 == key &&
               (forall j :: i < j < |v.fields| ==> v.fields[j].0 != key)
      ensures Get(v, key, default) == Ok(v.fields[i].1)
    {
      var r := Lookup(v.fields, key);
      var i' :| 0 <= i' < |v.fields| && v.fields[i'] == (key, r.value) &&
                forall j :: i' < j < |v.fields| ==> v.fields[j].0 != key;
      assert i' == i;
    }
  }

  /** The elements a `for` loop over `v` visits: a list's items, a string's
      characters, an object's keys. Iterating `None`, a number or a bool
      raises `TypeError`. */
  function Iterate(v: Json): (r: Py<seq<Json>>)
  {
    match v
    case JArr(items) => Ok(items)
    case JStr(s) => Ok(seq(|s|, i requires 0 <= i < |s| => JStr([s[i]])))
    case JObj(fields) =>
      var ks := Keys(fields);
      Ok(seq(|ks|, i requires 0 <= i < |ks| => JStr(ks[i])))
    case _ => Raise
  }

  /** A loop over a value visits nothing exactly when the value is false,
      and it raises exactly on `None`, numbers and bools. */
  lemma IterateEmptyIffFalsy(v: Json)
    ensures Iterate(v).Ok? <==> (v.JArr? || v.JStr? || v.JObj?)
    ensures Iterate(v).Ok? ==> (Iterate(v).value == [] <==> !Truthy(v))
  {
    if v.JObj? && v.fields != [] {
      assert v.fields[0].0 in Keys(v.fields);
    }
  }

  /** A loop over a list visits its items, over a string its characters,
      over a dict each distinct key once in first-occurrence order. */
  lemma IterateVisits(v: Json)
    ensures v.JArr? ==> Iterate(v) == Ok(v.items)
    ensures v.JStr? ==> (Iterate(v).Ok? && |Iterate(v).value| == |v.s| &&
                         forall i :: 0 <= i < |v.s| ==> Iterate(v).value[i] == JStr([v.s[i]]))
    ensures v.JObj? ==> (Iterate(v).Ok? && |Iterate(v).value| == |Keys(v.fields)| &&
                         forall i :: 0 <= i < |Keys(v.fields)| ==> Iterate(v).value[i] == JStr(Keys(v.fields)[i]))
  {
  }

  /** `a, b = v`: `v` must iterate over exactly two elements, otherwise
      `ValueError` (or `TypeError` when it cannot be iterated). */
  function Unpack2(v: Json): (r: Py<(Json, Json)>)
    ensures v.JArr? ==> (r.Ok? <==> |v.items| == 2)
    ensures v.JArr? && r.Ok? ==> v.items == [r.value.0, r.value.1]
  {
    match Iterate(v)
    case Ok(xs) => if |xs| == 2 then Ok((xs[0], xs[1])) else Raise
    case Raise => Raise
  }

  /** `v[0]`: a list's first item or a string's first character. An object
      has no key `0` (JSON keys are strings) and raises `KeyError`; an empty
      list or string raises `IndexError`; anything else `TypeError`. */
  function Index0(v: Json): (r: Py<Json>)
    ensures v.JArr? ==> (r.Ok? <==> v.items != []) && (r.Ok? ==> r.value == v.items[0])
    ensures r.Ok? ==> v.JArr? || v.JStr?
  {
    match v
    case JArr(items) => if items != [] then Ok(items[0]) else Raise
    case JStr(s) => if s != [] then Ok(JStr([s[0]])) else Raise
    case _ => Raise
  }

  /** `int(v)`: an int as it is, a bool as 0 or 1, a float truncated toward
      zero, a string read as a base-10 literal. `None`, a list or an object
      raises `TypeError`; a string that is no integer literal `ValueError`. */
  function ToInt(v: Json): (r: Py<int>)
    ensures v.JInt? ==> r == Ok(v.i)
    ensures v.JBool? ==> r == Ok(if v.b then 1 else 0)
    ensures v.JStr? ==> (r.Ok? <==> PyText.ParseInt(v.s).Some?) &&
                        (r.Ok? ==> r.value == PyText.ParseInt(v.s).value)
    ensures r.Ok? ==> !(v.JNull? || v.JArr? || v.JObj?)
  {
    match v
    case JInt(i) => Ok(i)
    case JBool(b) => Ok(if b then 1 else 0)
    case JFloat(f) => Ok(if f >= 0.0 then f.Floor else -((-f).Floor))
    case JStr(s) =>
      (match PyText.ParseInt(s)
       case Some(n) => Ok(n)
       case None => Raise)
    case _ => Raise
  }

  /** `int()` of a float truncates toward zero. */
  lemma ToIntTruncates(v: Json)
    requires v.JFloat?
    ensures v.f >= 0.0 ==> ToInt(v).Ok? && ToInt(v).value as real <= v.f < ToInt(v).value as real + 1.0
    ensures v.f < 0.0 ==> ToInt(v).Ok? && ToInt(v).value as real - 1.0 < v.f <= ToInt(v).value as real
  {
  }

  /** 2^1024 - 2^970, the least magnitude that IEEE 754 binary64 rounds to
      infinity: halfway between the largest finite double, (2^53 - 1) * 2^971,
      and 2^1024, where ties go to the even 2^1024. */
  const FloatOverflow: int := 0xfffffffffffffc00_0000000000000000_0000000000000000_0000000000000000_0000000000000000_0000000000000000_0000000000000000_0000000000000000_0000000000000000_0000000000000000_0000000000000000_0000000000000000_0000000000000000_0000000000000000_0000000000000000_0000000000000000

  /** Whether an int converts to a float: `float(n)` and `n / m` raise
      `OverflowError` for a result that rounds to infinity. */
  predicate FitsFloat(n: int) {
    -FloatOverflow < n < FloatOverflow
  }

  /** Whether `float(v)` succeeds: bools and floats convert, an int must be
      within the float range, a string must be a float literal (one that is
      too large gives `inf` and does not raise), and `None`, a list or an
      object raises. */
  predicate FloatConvertible(v: Json) {
    match v
    case JInt(i) => FitsFloat(i)
    case JFloat(_) => true
    case JBool(_) => true
    case JStr(s) => PyText.IsFloatLiteral(s)
    case _ => false
  }

  /** `float(v)` for the values a POI record can carry: an int converts
      exactly when it is within the float range, every integer literal
      `int()` accepts is also a float literal, and `None`, a list or a dict
      never converts. */
  lemma FloatConvertibleCases(v: Json)
    ensures v.JInt? ==> (FloatConvertible(v) <==> FitsFloat(v.i))
    ensures v.JStr? && PyText.ParseInt(v.s).Some? ==> FloatConvertible(v)
    ensures v.JNull? || v.JArr? || v.JObj? ==> !FloatConvertible(v)
  {
    if v.JStr? && PyText.ParseInt(v.s).Some? {
      PyText.IntLiteralIsFloatLiteral(v.s);
    }
  }

  /** Python floor division by 60. Dafny's `/` on `int` is Euclidean, which
      agrees with floor division for a positive divisor. */
  function Minutes(seconds: int): (m: int)
    ensures 60 * m <= seconds < 60 * m + 60
  {
    seconds / 60
  }

  /** `v // 60`: an int gives an int, a float the floored float, a bool
      counts as 0 or 1 (and both give 0); anything else raises `TypeError`. */
  function FloorDiv60(v: Json): (r: Py<Json>)
    ensures v.JInt? ==> r == Ok(JInt(Minutes(v.i)))
    ensures v.JBool? ==> r == Ok(JInt(0))
    ensures v.JFloat? ==> r.Ok? && r.value.JFloat? && r.value.f == r.value.f.Floor as real &&
                          60.0 * r.value.f <= v.f < 60.0 * r.value.f + 60.0
    ensures r.Ok? <==> (v.JInt? || v.JFloat? || v.JBool?)
  {
    match v
    case JInt(i) => Ok(JInt(Minutes(i)))
    case JBool(_) => Ok(JInt(0))
    case JFloat(f) => Ok(JFloat((f / 60.0).Floor as real))
    case _ => Raise
  }

  /** The float `round(v / 1000, 1)` yields. The model keeps the value
      it is computed from instead of the rounded float. */
  datatype Km = RoundedKm(meters: Json)

  /** `round(v / 1000, 1)`: defined for floats, bools and ints whose
      quotient is within the float range (a larger one raises
      `OverflowError`); anything else raises `TypeError`. */
  function RoundKm(v: Json): (r: Py<Km>)
    ensures r.Ok? <==> (v.JFloat? || v.JBool? || (v.JInt? && -1000 * FloatOverflow < v.i < 1000 * FloatOverflow))
    ensures r.Ok? ==> r.value.meters == v
  {
    match v
    case JInt(i) => if -1000 * FloatOverflow < i < 1000 * FloatOverflow then Ok(RoundedKm(v)) else Raise
    case JFloat(_) => Ok(RoundedKm(v))
    case JBool(_) => Ok(RoundedKm(v))
    case _ => Raise
  }

  /** Whether `v` can be a dict key: lists and objects are unhashable. */
  predicate Hashable(v: Json) {
    !v.JArr? && !v.JObj?
  }
}
