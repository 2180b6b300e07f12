/**
  The market-data client (api.py): navigation of a decoded JSON response
  along a key path. The HTTP request itself is not modelled; its decoded
  body is an input value.
 */
module Api {
  import opened Optional
  import PyDict
  import Decimal

  /** A decoded JSON value; an object's members are a Python dict in insertion order. */
  datatype Json =
    | JNull
    | JBool(b: bool)
    | JNum(n: real)
    | JStr(s: string)
    | JArr(items: seq<Json>)
    | JObj(fields: PyDict.Dict<Json>)

  /**
    The market data service: the decoded body `make_request` gets back for
    a query about a symbol (or, for `get_symbol`, a name).
   */
  type Market = string -> Json

  /** Python truthiness of a decoded JSON value. */
  predicate Truthy(v: Json)
  {
    match v
    case JNull => false
    case JBool(b) => b
    case JNum(n) => n != 0.0
    case JStr(s) => s != []
    case JArr(items) => items != []
    case JObj(fields) => fields != []
  }

  /**
    What `extract_value` ends with: a value, Python's None, or an
    AttributeError raised by calling `.get` or `.keys` on something that is
    not a dict.
   */
  datatype Outcome = Found(value: Json) | NotFound | Fault

  /** `str.isdigit` on ASCII text: non-empty and all digits. */
  predicate IsDigitString(s: string)
  {
    |s| > 0 && Decimal.AllDigits(s)
  }

  /** The first (at most) ten keys of an object are all digit strings. */
  predicate LeadingKeysNumeric(fields: PyDict.Dict<Json>)
  {
    var ks := PyDict.Keys(fields);
    forall i :: 0 <= i < |ks| && i < 10 ==> IsDigitString(ks[i])
  }

  /** api.py:18-19: a non-empty list is replaced by its first element. */
  function UnwrapList(v: Json): (u: Json)
    ensures v.JArr? && v.items != [] ==> u == v.items[0]
    ensures !(v.JArr? && v.items != []) ==> u == v
  {
    if Truthy(v) && v.JArr? then v.items[0] else v
  }

  /**
    api.py:20-21: a non-empty dict keyed by ids (its first ten keys are digit
    strings) is replaced by its first value; calling `.keys()` on any other
    truthy value raises.
   */
  function UnwrapNumbered(v: Json): (r: Outcome)
    ensures r == Fault <==> Truthy(v) && !v.JObj?
    ensures v.JObj? && v.fields != [] && LeadingKeysNumeric(v.fields) ==> r == Found(v.fields[0].1)
    ensures !Truthy(v) || (v.JObj? && !LeadingKeysNumeric(v.fields)) ==> r == Found(v)
  {
    if !Truthy(v) then Found(v)
    else if !v.JObj? then Fault
    else if LeadingKeysNumeric(v.fields) then Found(v.fields[0].1)
    else Found(v)
  }

  /**
    api.py:22-24: `value.get(key)`, which raises on a non-dict; a missing
    or falsy member ends the walk with None.
   */
  function GetKey(v: Json, key: string): (r: Outcome)
    ensures r == Fault <==> !v.JObj?
    ensures r.Found? <==> v.JObj? && PyDict.Get(v.fields, key).Some? && Truthy(PyDict.Get(v.fields, key).value)
    ensures r.Found? ==> r.value == PyDict.Get(v.fields, key).value
  {
    if !v.JObj? then Fault
    else match PyDict.Get(v.fields, key)
      case None => NotFound
      case Some(x) => if Truthy(x) then Found(x) else NotFound
  }

  /** One iteration of the loop in `extract_value`. */
  function Step(v: Json, key: string): Outcome
  {
    match UnwrapNumbered(UnwrapList(v))
    case Found(u) => GetKey(u, key)
    case NotFound => NotFound
    case Fault => Fault
  }

  /** The loop of `extract_value` from `v` over the remaining keys. */
  function Walk(v: Json, keys: seq<string>): Outcome
    decreases |keys|
  {
    if keys == [] then Found(v)
    else match Step(v, keys[0])
      case Found(u) => Walk(u, keys[1..])
      case NotFound => NotFound
      case Fault => Fault
  }

  /** `extract_value(data, keys)`. */
  function Extract(data: Json, keys: seq<string>): Outcome
  {
    if !data.JObj? then Fault
    else match PyDict.Get(data.fields, "data")
      case None => NotFound
      case Some(v) => if Truthy(v) then Walk(v, keys) else NotFound
  }

  /** The key paths of `get_name`, `get_symbol` and `get_price`. */
  function NamePath(symbol: string): seq<string> { [symbol, "name"] }
  function SymbolPath(): seq<string> { ["symbol"] }
  function PricePath(symbol: string): seq<string> { [symbol, "quote", "USD", "price"] }

  function GetName(response: Json, symbol: string): Outcome { Extract(response, NamePath(symbol)) }
  function GetSymbol(response: Json): Outcome { Extract(response, SymbolPath()) }
  function GetPrice(response: Json, symbol: string): Outcome { Extract(response, PricePath(symbol)) }

  /**
    `extract_value` as the loop it is: `value` is rebound once per key.
    Popping a list's first element also removes it from the response in
    place; no caller looks at the response again, so only the value popped
    is modelled.
   */
  method ExtractValue(data: Json, keys: seq<string>) returns (r: Outcome)
    ensures r == Extract(data, keys)
  {
    if !data.JObj? {
      return Fault;
    }
    var top := PyDict.Get(data.fields, "data");
    if top.None? || !Truthy(top.value) {
      return NotFound;
    }
    var value := top.value;
    var i := 0;
    while i < |keys|
      invariant 0 <= i <= |keys|
      invariant Walk(value, keys[i..]) == Extract(data, keys)
    {
      assert keys[i..][1..] == keys[i + 1..];
      if Truthy(value) && value.JArr? {
        value := value.items[0];
      }
      if Truthy(value) {
        if !value.JObj? {
          return Fault;
        }
        if LeadingKeysNumeric(value.fields) {
          value := value.fields[0].1;
        }
      }
      if !value.JObj? {
        return Fault;
      }
      var next := PyDict.Get(value.fields, keys[i]);
      if next.None? || !Truthy(next.value) {
        return NotFound;
      }
      value := next.value;
      i := i + 1;
    }
    return Found(value);
  }

  /** Every value the walk reaches from a truthy start is truthy. */
  lemma {:induction false} WalkFindsTruthy(v: Json, keys: seq<string>)
    requires Truthy(v)
    requires Walk(v, keys).Found?
    ensures Truthy(Walk(v, keys).value)
    decreases |keys|
  {
    if keys != [] {
      WalkFindsTruthy(Step(v, keys[0]).value, keys[1..]);
    }
  }

  /**
    extract_value never yields a falsy value: a missing or falsy "data", or a
    missing or falsy member anywhere on the path, gives None instead.
   */
  lemma ExtractFindsTruthy(data: Json, keys: seq<string>)
    requires Extract(data, keys).Found?
    ensures Truthy(Extract(data, keys).value)
  {
    WalkFindsTruthy(PyDict.Get(data.fields, "data").value, keys);
  }

  /** So a price of 0 is never reported: the bot takes it for an unknown currency. */
  lemma PriceIsNeverZero(response: Json, symbol: string)
    ensures GetPrice(response, symbol) != Found(JNum(0.0))
  {
    if GetPrice(response, symbol).Found? {
      ExtractFindsTruthy(response, PricePath(symbol));
    }
  }

  /**
    Walking a path in two parts: the second part is consulted only when the
    first reaches a value, so the first None or fault ends the walk.
   */
  lemma {:induction false} WalkAppend(v: Json, a: seq<string>, b: seq<string>)
    ensures Walk(v, a + b) == match Walk(v, a) case Found(u) => Walk(u, b) case other => other
    decreases |a|
  {
    if a != [] {
      assert (a + b)[0] == a[0];
      assert (a + b)[1..] == a[1..] + b;
      if Step(v, a[0]).Found? {
        WalkAppend(Step(v, a[0]).value, a[1..], b);
      }
    } else {
      assert a + b == b;
    }
  }

  /**
    As soon as the lookup of key `i` yields None, so does the whole walk,
    whatever the keys after it.
   */
  lemma WalkStopsAtMissingKey(v: Json, keys: seq<string>, i: nat, u: Json)
    requires i < |keys|
    requires Walk(v, keys[..i]) == Found(u)
    requires Step(u, keys[i]) == NotFound
    ensures Walk(v, keys) == NotFound
  {
    assert keys == keys[..i] + keys[i..];
    WalkAppend(v, keys[..i], keys[i..]);
  }

  /** A missing or falsy top-level "data" gives None, whatever the path. */
  lemma MissingDataIsNone(data: Json, keys: seq<string>)
    requires data.JObj?
    requires PyDict.Get(data.fields, "data").None? || !Truthy(PyDict.Get(data.fields, "data").value)
    ensures Extract(data, keys) == NotFound
  {
  }

  /** When every lookup succeeds, the walk ends at the value behind the last key. */
  lemma {:induction false} WalkFollowsPath(v: Json, keys: seq<string>, values: seq<Json>)
    requires |values| == |keys| + 1 && values[0] == v
    requires forall i :: 0 <= i < |keys| ==> Step(values[i], keys[i]) == Found(values[i + 1])
    ensures Walk(v, keys) == Found(values[|keys|])
    decreases |keys|
  {
    if keys != [] {
      assert Step(values[0], keys[0]) == Found(values[1]);
      WalkFollowsPath(values[1], keys[1..], values[1..]);
    }
  }
}
