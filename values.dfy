/** The values that cross the client's boundary: decoded JSON, Python truthiness,
    and the read-only resource wrapper `PipelineDealsObject`. */
module Values {
  import opened Wrappers

  /** A decoded JSON value as `response.json()` returns it. `Null` is also Python's
      `None`. Numbers are integers. */
  datatype Json =
    | Null
    | Bool(b: bool)
    | Num(n: int)
    | Str(s: string)
    | Arr(items: seq<Json>)
    | Obj(fields: map<string, Json>)

  /** Python's `bool(v)` for a decoded JSON value: empty containers, zero, the
      empty string, False and None are false. */
  predicate Truthy(v: Json) {
    match v
    case Null => false
    case Bool(b) => b
    case Num(n) => n != 0
    case Str(s) => s != []
    case Arr(xs) => xs != []
    case Obj(m) => m != map[]
  }

  /** Python's `str(b)` for a bool. */
  function BoolRepr(b: bool): string {
    if b then "True" else "False"
  }

  function LowerChar(ch: char): char {
    if 'A' <= ch <= 'Z' then (ch as int + 32) as char else ch
  }

  /** Python's `str.lower()` on ASCII text. */
  function Lower(s: string): (r: string)
    ensures |r| == |s|
  {
    if s == [] then [] else [LowerChar(s[0])] + Lower(s[1..])
  }

  /** `str(bool(v)).lower()`: the text a boolean flag travels as in a query string.
      It is always one of the two words, and "true" exactly for a truthy value. */
  function FlagText(v: Json): (r: Json)
    ensures r == Str("true") || r == Str("false")
    ensures r == Str("true") <==> Truthy(v)
  {
    assert Lower("True") == "true" && Lower("False") == "false";
    Str(Lower(BoolRepr(Truthy(v))))
  }

  /** `kwargs.get(key, default)`: the keyword argument Python binds to a parameter
      with a default value. */
  function Lookup(kwargs: map<string, Json>, key: string, default: Json): Json {
    if key in kwargs then kwargs[key] else default
  }

  /** A `PipelineDealsObject` (or subclass) instance: `klass` names the wrapper class,
      `data` is the decoded object it was constructed from. It is never mutated. */
  datatype Resource = Resource(klass: string, data: Json) {
    /** `get(attr, default)`. None stands for the AttributeError Python raises when the
        wrapped data is not a mapping (for one, the None of an empty response). */
    function Get(attr: string, default: Json): (r: Option<Json>)
      ensures r.Some? <==> data.Obj?
      ensures r.Some? && attr in data.fields ==> r.value == data.fields[attr]
      ensures r.Some? && attr !in data.fields ==> r.value == default
    {
      if data.Obj? then Some(Lookup(data.fields, attr, default)) else None
    }

    /** `items()`: the wrapped mapping's entries; None when the data is not a mapping. */
    function Items(): (r: Option<map<string, Json>>)
      ensures r.Some? <==> data.Obj?
      ensures r.Some? ==> r.value.Keys == data.fields.Keys
      ensures r.Some? ==> forall k :: k in r.value ==> r.value[k] == data.fields[k]
    {
      if data.Obj? then Some(data.fields) else None
    }
  }

  /** What `update`, `delete` and `get_by_id` accept as `obj` or `object_id`: an
      instance or a raw value. `RawId(Null)` is Python's `None`. */
  datatype ObjRef = Instance(res: Resource) | RawId(id: Json)

  /** `object_id is not None`. */
  predicate IsSome(objectId: ObjRef) {
    objectId != RawId(Null)
  }
}
