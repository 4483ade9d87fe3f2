/**
 * Python's view of a decoded JSON payload, and the handful of Python operations
 * the normalisers apply to it: `dict.get(key, default)`, truthiness (`if not x`),
 * `x[:n]`, `x[0]`, iteration (`for row in x`), `str(int)`, and the exceptions
 * those operations raise with the text `str(e)` gives for them.
 */
module PyJson {

  datatype Option<+T> = None | Some(value: T)

  /** `json.loads` produces `int` for integral literals and `float` for the rest. */
  datatype Number = Int(i: int) | Float(f: real)

  /** A decoded JSON value. An object keeps its keys in insertion order, as a Python dict does. */
  datatype Json =
    | Null
    | Bool(b: bool)
    | Num(n: Number)
    | Str(s: string)
    | Arr(items: seq<Json>)
    | Obj(fields: seq<(string, Json)>)

  /** The fields of a top-level dict, such as the payload a query returns. */
  type Dict = seq<(string, Json)>

  const EmptyObj: Json := Obj([])
  const EmptyList: Json := Arr([])
  const EmptyStr: Json := Str("")
  const Zero: Json := Num(Int(0))

  /** The name Python gives the value's type in its error messages. */
  function TypeName(v: Json): string
  {
    match v
    case Null => "NoneType"
    case Bool(_) => "bool"
    case Num(Int(_)) => "int"
    case Num(Float(_)) => "float"
    case Str(_) => "str"
    case Arr(_) => "list"
    case Obj(_) => "dict"
  }

  /** Python truthiness: null, false, zero and empty containers are falsy. */
  predicate Truthy(v: Json)
  {
    match v
    case Null => false
    case Bool(b) => b
    case Num(Int(i)) => i != 0
    case Num(Float(f)) => f != 0.0
    case Str(s) => s != []
    case Arr(items) => items != []
    case Obj(fields) => fields != []
  }

  /** The exceptions the normalisers can meet, one per Python operation misapplied. */
  datatype PyException =
    | NoAttribute(typeName: string, attribute: string)  // AttributeError
    | NotSubscriptable(typeName: string)                 // TypeError
    | NotIterable(typeName: string)                      // TypeError
    | IndexOutOfRange(typeName: string)                  // IndexError
    | UnhashableSlice                                    // TypeError: a dict indexed by a slice
    | MissingKey(key: int)                               // KeyError

  /** `str(e)` for each exception. */
  function Message(e: PyException): (m: string)
    ensures m != []
  {
    match e
    case NoAttribute(t, a) => "'" + t + "' object has no attribute '" + a + "'"
    case NotSubscriptable(t) => "'" + t + "' object is not subscriptable"
    case NotIterable(t) => "'" + t + "' object is not iterable"
    case IndexOutOfRange(t) => (if t == "str" then "string" else t) + " index out of range"
    case UnhashableSlice => "unhashable type: 'slice'"
    case MissingKey(k) => IntToDecimal(k)
  }

  /** The outcome of Python code that either produces a value or raises. */
  datatype Result<+T> = Ok(value: T) | Raised(exc: PyException)
  {
    predicate IsFailure() { Raised? }

    function PropagateFailure<U>(): Result<U>
      requires Raised?
    {
      Raised(exc)
    }

    function Extract(): T
      requires Ok?
    {
      value
    }
  }

  /** The value stored under `key`: a Python dict has each key once, so the first match is the match. */
  function Lookup(fields: seq<(string, Json)>, key: string): (r: Option<Json>)
    ensures r.None? <==> forall i :: 0 <= i < |fields| ==> fields[i].0 != key
    ensures r.Some? ==>
      exists i :: 0 <= i < |fields| && fields[i] == (key, r.value) &&
        forall j :: 0 <= j < i ==> fields[j].0 != key
  {
    if fields == [] then None
    else if fields[0].0 == key then Some(fields[0].1)
    else
      var r := Lookup(fields[1..], key);
      if r.Some? then
        var i :| 0 <= i < |fields[1..]| && fields[1..][i] == (key, r.value) &&
          forall j :: 0 <= j < i ==> fields[1..][j].0 != key;
        assert fields[i + 1] == (key, r.value);
        r
      else r
  }

  predicate HasKey(fields: seq<(string, Json)>, key: string)
  {
    Lookup(fields, key).Some?
  }

  /** `d.get(key, default)` on a dict known to be one. */
  function LookupOr(fields: seq<(string, Json)>, key: string, default: Json): Json
  {
    match Lookup(fields, key)
    case Some(x) => x
    case None => default
  }

  /**
   * `v.get(key, default)`: the default only when the key is absent (a key present
   * with value null yields null), and AttributeError when `v` is not a dict.
   */
  function Get(v: Json, key: string, default: Json): (r: Result<Json>)
    ensures r.Raised? <==> !v.Obj?
    ensures r.Raised? ==> r.exc == NoAttribute(TypeName(v), "get")
    ensures v.Obj? && (forall i :: 0 <= i < |v.fields| ==> v.fields[i].0 != key) ==> r == Ok(default)
    ensures v.Obj? ==>
      forall i :: (0 <= i < |v.fields| && v.fields[i].0 == key &&
                   forall j :: 0 <= j < i ==> v.fields[j].0 != key) ==> r == Ok(v.fields[i].1)
  {
    match v
    case Obj(fields) =>
      var found := Lookup(fields, key);
      if found.Some? then
        FirstMatchUnique(fields, key, found.value);
        Ok(found.value)
      else Ok(default)
    case _ => Raised(NoAttribute(TypeName(v), "get"))
  }

  /** Two first matches of a key are the same entry. */
  lemma FirstMatchUnique(fields: seq<(string, Json)>, key: string, x: Json)
    requires Lookup(fields, key) == Some(x)
    ensures forall i :: (0 <= i < |fields| && fields[i].0 == key &&
                         forall j :: 0 <= j < i ==> fields[j].0 != key) ==> fields[i].1 == x
  {
    var k :| 0 <= k < |fields| && fields[k] == (key, x) && forall j :: 0 <= j < k ==> fields[j].0 != key;
    forall i | 0 <= i < |fields| && fields[i].0 == key && (forall j :: 0 <= j < i ==> fields[j].0 != key)
      ensures fields[i].1 == x
    {
      assert i == k;
    }
  }

  /**
   * The first `.get` applied to `v`: it raises unless `v` is a dict, and once it has
   * not raised every later `.get` on the same value is a plain dict read (`LookupOr`).
   */
  function AsDict(v: Json): (r: Result<Dict>)
    ensures r.Ok? <==> v.Obj?
  {
    if v.Obj? then Ok(v.fields) else Raised(NoAttribute(TypeName(v), "get"))
  }

  /** `v.get(key, default)` is `AsDict` followed by a dict read. */
  lemma GetIsAsDictThenRead(v: Json, key: string, default: Json)
    ensures Get(v, key, default) ==
      match AsDict(v)
      case Ok(fields) => Ok(LookupOr(fields, key, default))
      case Raised(e) => Raised(e)
  {
  }

  /**
   * `v.get(k1, {}).get(k2, {}) ... .get(kn, last)`: every intermediate lookup
   * defaults to an empty dict, the final one to `last`.
   */
  function GetPath(v: Json, keys: seq<string>, last: Json): (r: Result<Json>)
    requires keys != []
    ensures !v.Obj? ==> r == Raised(NoAttribute(TypeName(v), "get"))
    ensures r.Raised? ==> r.exc.NoAttribute? && r.exc.attribute == "get"
    ensures v == EmptyObj ==> r == Ok(last)
    ensures v.Obj? && !HasKey(v.fields, keys[0]) ==> r == Ok(last)
    decreases |keys|
  {
    if |keys| == 1 then Get(v, keys[0], last)
    else
      var next :- Get(v, keys[0], EmptyObj);
      GetPath(next, keys[1..], last)
  }

  /**
   * The number of leading elements `s[:stop]` keeps of a sequence of length `n`:
   * a negative stop counts from the end.
   */
  function SliceStop(n: nat, stop: int): (k: nat)
    ensures k <= n
  {
    if stop >= 0 then (if stop < n then stop else n)
    else if n + stop < 0 then 0
    else n + stop
  }

  /** `v[:stop]`: lists and strings slice, a dict rejects the slice key, scalars are not subscriptable. */
  function Slice(v: Json, stop: int): (r: Result<Json>)
    ensures r.Ok? <==> v.Arr? || v.Str?
    ensures v.Arr? && 0 <= stop ==>
      r.value.Arr? && r.value.items <= v.items &&
      |r.value.items| == (if stop < |v.items| then stop else |v.items|)
  {
    match v
    case Arr(items) => Ok(Arr(items[..SliceStop(|items|, stop)]))
    case Str(s) => Ok(Str(s[..SliceStop(|s|, stop)]))
    case Obj(_) => Raised(UnhashableSlice)
    case _ => Raised(NotSubscriptable(TypeName(v)))
  }

  /** `v[0]`: a dict is indexed by the integer key 0, which a JSON object never has. */
  function First(v: Json): (r: Result<Json>)
    ensures r.Ok? <==> (v.Arr? && v.items != []) || (v.Str? && v.s != [])
    ensures v.Arr? && r.Ok? ==> r.value == v.items[0]
  {
    match v
    case Arr(items) => if items == [] then Raised(IndexOutOfRange("list")) else Ok(items[0])
    case Str(s) => if s == [] then Raised(IndexOutOfRange("str")) else Ok(Str([s[0]]))
    case Obj(_) => Raised(MissingKey(0))
    case _ => Raised(NotSubscriptable(TypeName(v)))
  }

  /** The values `for x in v` visits: a list's items, a string's characters, a dict's keys. */
  function Iterate(v: Json): (r: Result<seq<Json>>)
    ensures r.Raised? <==> v.Null? || v.Bool? || v.Num?
    ensures r.Ok? ==> (|r.value| == 0 <==> !Truthy(v))
    ensures v.Arr? ==> r == Ok(v.items)
  {
    match v
    case Arr(items) => Ok(items)
    case Str(s) => Ok(seq(|s|, i requires 0 <= i < |s| => Str([s[i]])))
    case Obj(fields) => Ok(seq(|fields|, i requires 0 <= i < |fields| => Str(fields[i].0)))
    case Null => Raised(NotIterable(TypeName(v)))
    case Bool(_) => Raised(NotIterable(TypeName(v)))
    case Num(_) => Raised(NotIterable(TypeName(v)))
  }

  /** The values Python treats as false: `None`, `False`, `0`, `0.0`, `""`, `[]` and `{}`. */
  lemma FalsyValues(v: Json)
    ensures !Truthy(v) <==> v in {Null, Bool(false), Zero, Num(Float(0.0)), EmptyStr, EmptyList, EmptyObj}
  {
  }

  /**
   * A Python `for` loop over `rows` whose body may raise: the body maps the state
   * so far, the position (as `enumerate` gives it) and the row to the next state;
   * the first exception ends the loop and is the loop's outcome.
   */
  function Fold<S>(rows: seq<Json>, init: S, step: (S, nat, Json) -> Result<S>): (r: Result<S>)
    ensures rows == [] ==> r == Ok(init)
    ensures r.Raised? ==> rows != []
    decreases |rows|
  {
    if rows == [] then Ok(init)
    else
      var acc :- Fold(rows[..|rows| - 1], init, step);
      step(acc, |rows| - 1, rows[|rows| - 1])
  }

  /** One more iteration of a loop that has not raised yet. */
  lemma FoldExtend<S>(rows: seq<Json>, i: nat, init: S, step: (S, nat, Json) -> Result<S>, acc: S)
    requires i < |rows|
    requires Fold(rows[..i], init, step) == Ok(acc)
    ensures Fold(rows[..i + 1], init, step) == step(acc, i, rows[i])
  {
    assert rows[..i + 1][..i] == rows[..i];
  }

  /** An exception in iteration `i` is the outcome of the whole loop: later rows are never visited. */
  lemma {:induction false} FoldStopsAt<S>(rows: seq<Json>, i: nat, init: S, step: (S, nat, Json) -> Result<S>, acc: S, e: PyException)
    requires i < |rows|
    requires Fold(rows[..i], init, step) == Ok(acc)
    requires step(acc, i, rows[i]) == Raised(e)
    ensures Fold(rows, init, step) == Raised(e)
  {
    if |rows| == i + 1 {
      FoldExtend(rows, i, init, step, acc);
      assert rows[..i + 1] == rows;
    } else {
      var shorter := rows[..|rows| - 1];
      assert shorter[..i] == rows[..i];
      FoldStopsAt(shorter, i, init, step, acc, e);
    }
  }

  /** The body of a loop that appends `f(i, row)` to a list for each enumerated row. */
  function AppendStep<T>(f: (nat, Json) -> Result<T>): (seq<T>, nat, Json) -> Result<seq<T>>
  {
    (acc: seq<T>, i: nat, row: Json) =>
      match f(i, row)
      case Ok(x) => Ok(acc + [x])
      case Raised(e) => Raised(e)
  }

  /** An appending loop that did not raise built exactly one item per row, in row order. */
  lemma {:induction false} AppendLoopOk<T>(rows: seq<Json>, f: (nat, Json) -> Result<T>)
    requires Fold(rows, [], AppendStep(f)).Ok?
    ensures var built := Fold(rows, [], AppendStep(f)).value;
      |built| == |rows| &&
      forall i :: 0 <= i < |rows| ==> f(i, rows[i]) == Ok(built[i])
  {
    if rows != [] {
      var n := |rows| - 1;
      var init := rows[..n];
      AppendLoopOk(init, f);
      assert forall i :: 0 <= i < n ==> init[i] == rows[i];
    }
  }

  /** An appending loop raises only if some row does. */
  lemma {:induction false} AppendLoopSucceeds<T>(rows: seq<Json>, f: (nat, Json) -> Result<T>)
    requires forall i :: 0 <= i < |rows| ==> f(i, rows[i]).Ok?
    ensures Fold(rows, [], AppendStep(f)).Ok?
  {
    if rows != [] {
      var n := |rows| - 1;
      var init := rows[..n];
      assert forall i :: 0 <= i < n ==> init[i] == rows[i];
      AppendLoopSucceeds(init, f);
    }
  }

  function Digit(d: nat): char
    requires d < 10
  {
    "0123456789"[d]
  }

  /** `str(n)` for a non-negative Python int. */
  function NatToDecimal(n: nat): (s: string)
    ensures s != []
    ensures forall i :: 0 <= i < |s| ==> '0' <= s[i] <= '9'
  {
    if n < 10 then [Digit(n)] else NatToDecimal(n / 10) + [Digit(n % 10)]
  }

  /** `str(n)` for a Python int. */
  function IntToDecimal(n: int): (s: string)
    ensures s != []
  {
    if n < 0 then "-" + NatToDecimal(-n) else NatToDecimal(n)
  }

  /** The value of a string of decimal digits: `int(s)`, the inverse of `str`. */
  function DecimalValue(s: string): nat
    requires forall i :: 0 <= i < |s| ==> '0' <= s[i] <= '9'
  {
    if s == [] then 0
    else DecimalValue(s[..|s| - 1]) * 10 + ((s[|s| - 1] as int) - ('0' as int))
  }

  /** `int(str(n)) == n`: the decimal rendering loses nothing. */
  lemma {:induction false} DecimalRoundTrip(n: nat)
    ensures DecimalValue(NatToDecimal(n)) == n
  {
    var s := NatToDecimal(n);
    if n >= 10 {
      DecimalRoundTrip(n / 10);
      assert s[..|s| - 1] == NatToDecimal(n / 10);
      assert s[|s| - 1] == Digit(n % 10);
    }
  }
}
