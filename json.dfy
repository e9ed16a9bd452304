/**
 * Values kept in the browser's `localStorage`. Items are strings; those written by
 * `JSON.stringify` are kept here as the value they encode (`Encoded`), and the text
 * layer is not modelled: `JSON.parse` gives the encoded value back. Any other text
 * (`Raw`) is taken to be text that `JSON.parse` rejects, the empty string included.
 */
module Json {
  import opened Wrappers

  datatype Value =
    | Null
    | Bool(b: bool)
    | Num(n: int)
    | Str(s: string)
    | Arr(items: seq<Value>)
    | Obj(fields: map<string, Value>)

  /** JavaScript truthiness of a parsed value. */
  predicate Truthy(v: Value)
  {
    match v
    case Null => false
    case Bool(b) => b
    case Num(n) => n != 0
    case Str(s) => s != ""
    case _ => true
  }

  /** `typeof v === 'object'`: objects, arrays and `null`. */
  predicate IsObjectType(v: Value)
  {
    v.Null? || v.Arr? || v.Obj?
  }

  datatype Stored = Encoded(value: Value) | Raw(text: string)

  type Store = map<string, Stored>

  /** Truthiness of the string `getItem` returns: JSON text is never empty. */
  predicate StoredTruthy(st: Stored)
  {
    st.Encoded? || st.text != ""
  }

  /** `JSON.parse`: `None` stands for the `SyntaxError` it throws. */
  function Parse(st: Stored): (r: Option<Value>)
    ensures r.Some? <==> st.Encoded?
  {
    if st.Encoded? then Some(st.value) else None
  }

  /** Reading property `k` of a parsed value. */
  datatype Access = Undefined | Found(v: Value) | TypeError

  function Get(v: Value, k: string): (a: Access)
    ensures a.TypeError? <==> v.Null?
  {
    match v
    case Null => TypeError
    case Obj(fields) => if k in fields then Found(fields[k]) else Undefined
    case _ => Undefined
  }

  /** Truthiness of a property read that did not throw. */
  predicate AccessTruthy(a: Access)
  {
    a.Found? && Truthy(a.v)
  }
}

/** The browser's `localStorage`, shared by every service that persists settings. */
module Browser {
  import opened Wrappers
  import Json

  class LocalStorage {
    var items: Json.Store

    constructor (items: Json.Store)
      ensures this.items == items
    {
      this.items := items;
    }

    /** `getItem(key)`: `null` for a missing key. */
    function GetItem(key: string): (r: Option<Json.Stored>)
      reads this
      ensures r.Some? <==> key in items
    {
      if key in items then Some(items[key]) else None
    }

    /** `setItem(key, value)`. */
    method SetItem(key: string, value: Json.Stored)
      modifies this
      ensures items == old(items)[key := value]
    {
      items := items[key := value];
    }
  }
}
