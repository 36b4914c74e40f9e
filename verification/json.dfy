/** JSON values as the Python code sees them after `json.loads` or before a
    FastAPI response is serialised: dicts keep their insertion order, and the
    code reads them with `d[key]`, `d.get(key, default)`, `key in d` and
    truthiness tests. Floating-point numbers are not modelled.
 */
module Json {
  import opened Results

  datatype Json =
    | Null
    | Bool(b: bool)
    | Num(n: int)
    | Str(s: string)
    | Arr(items: seq<Json>)
    | Obj(fields: seq<(string, Json)>)

  /** True when some binding of `fields` has key `key`. */
  predicate Binds(fields: seq<(string, Json)>, key: string)
  {
    exists i :: 0 <= i < |fields| && fields[i].0 == key
  }

  /** The value bound to `key`: the first binding with that key, which is the
      only one when the keys are distinct, as in a Python dict. */
  function Lookup(fields: seq<(string, Json)>, key: string): (r: Option<Json>)
    ensures r.Some? <==> Binds(fields, key)
    ensures r.Some? ==> exists i :: 0 <= i < |fields| && fields[i] == (key, r.value)
                                    && forall j :: 0 <= j < i ==> fields[j].0 != key
  {
    if |fields| == 0 then None
    else if fields[0].0 == key then Some(fields[0].1)
    else
      var r := Lookup(fields[1..], key);
      assert forall i :: 0 <= i < |fields| - 1 ==> fields[1..][i] == fields[i + 1];
      r
  }

  /** The binding at position `n` is the one found when no earlier binding
      has its key. */
  lemma LookupAt(fields: seq<(string, Json)>, n: nat)
    requires n < |fields|
    requires forall j :: 0 <= j < n ==> fields[j].0 != fields[n].0
    ensures Lookup(fields, fields[n].0) == Some(fields[n].1)
  {
    var key := fields[n].0;
    assert Binds(fields, key);
    var v := Lookup(fields, key).value;
    var i :| 0 <= i < |fields| && fields[i] == (key, v) && forall j :: 0 <= j < i ==> fields[j].0 != key;
    assert i == n;
  }

  /** `key in j` for a dict `j`. */
  predicate HasKey(j: Json, key: string)
  {
    j.Obj? && Lookup(j.fields, key).Some?
  }

  /** `j[key]`: a KeyError on a dict without the key, a TypeError (or
      AttributeError) on anything that is not a dict. */
  function Index(j: Json, key: string): (r: Result<Json>)
    ensures r.Ok? <==> HasKey(j, key)
    ensures r.Ok? ==> Lookup(j.fields, key) == Some(r.value)
    ensures !j.Obj? ==> r == Err(NotAnObject)
    ensures j.Obj? && !HasKey(j, key) ==> r == Err(KeyMissing(key))
  {
    if !j.Obj? then Err(NotAnObject)
    else match Lookup(j.fields, key)
      case Some(v) => Ok(v)
      case None => Err(KeyMissing(key))
  }

  /** `j.get(key, default)`: never a KeyError, but an AttributeError when `j`
      is not a dict. */
  function GetOr(j: Json, key: string, default: Json): (r: Result<Json>)
    ensures r.Ok? <==> j.Obj?
    ensures HasKey(j, key) ==> r == Index(j, key)
    ensures j.Obj? && !HasKey(j, key) ==> r == Ok(default)
  {
    if !j.Obj? then Err(NotAnObject)
    else match Lookup(j.fields, key)
      case Some(v) => Ok(v)
      case None => Ok(default)
  }

  /** Python's `bool(j)`: `None`, `False`, `0` and empty strings, lists and
      dicts are false; everything else is true. */
  predicate Truthy(j: Json)
  {
    match j
    case Null => false
    case Bool(b) => b
    case Num(n) => n != 0
    case Str(s) => |s| > 0
    case Arr(items) => |items| > 0
    case Obj(fields) => |fields| > 0
  }

  predicate IsDigit(c: char)
  {
    '0' <= c <= '9'
  }

  predicate AllDigits(s: string)
  {
    forall i :: 0 <= i < |s| ==> IsDigit(s[i])
  }

  /** The number a string of decimal digits denotes. */
  function DigitsValue(s: string): nat
    requires AllDigits(s)
  {
    if |s| == 0 then 0
    else DigitsValue(s[..|s| - 1]) * 10 + (s[|s| - 1] as int - '0' as int)
  }

  /** Python's `str(n)` for a natural number: decimal digits without a
      leading zero. */
  function Digits(n: nat): (r: string)
    ensures |r| > 0 && AllDigits(r)
    ensures r[0] == '0' <==> n == 0
    ensures DigitsValue(r) == n
  {
    if n < 10 then [('0' as int + n) as char]
    else
      var r := Digits(n / 10) + [('0' as int + n % 10) as char];
      assert r[..|r| - 1] == Digits(n / 10);
      r
  }

  /** Python's `str(n)` for an integer. */
  function Decimal(n: int): (r: string)
    ensures n >= 0 ==> r == Digits(n)
    ensures n < 0 ==> r == "-" + Digits(-n)
  {
    if n < 0 then "-" + Digits(-n) else Digits(n)
  }

  /** Python's `str(j)`, which is also what an f-string renders. Strings
      render as themselves; lists and dicts render through `show`, Python's
      `repr` of containers, which this model does not define. */
  function PyStr(j: Json, show: Json -> string): (r: string)
    ensures j.Str? ==> r == j.s
    ensures j.Null? ==> r == "None"
    ensures j.Bool? ==> r == (if j.b then "True" else "False")
    ensures j.Num? && j.n >= 0 ==> |r| > 0 && AllDigits(r) && DigitsValue(r) == j.n && (r[0] == '0' ==> r == "0")
    ensures j.Num? && j.n < 0 ==> |r| > 1 && r[0] == '-' && AllDigits(r[1..]) && DigitsValue(r[1..]) == -j.n
                                  && r[1] != '0'
  {
    match j
    case Null => "None"
    case Bool(b) => if b then "True" else "False"
    case Num(n) => Decimal(n)
    case Str(s) => s
    case Arr(_) => show(j)
    case Obj(_) => show(j)
  }
}
