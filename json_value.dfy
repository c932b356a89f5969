/// The value model of the JSON layer: `JsonType`, the tagged union of a
/// value, and `Json`, an object mapping keys to values (src/lib.rs:35-110).
module JsonValue {

  datatype Option<+T> = None | Some(value: T)

  /** A signed 64-bit integer, the payload of `JsonType::i64`. */
  newtype i64 = x: int | -0x8000_0000_0000_0000 <= x < 0x8000_0000_0000_0000

  const MaxI64: int := 0x7fff_ffff_ffff_ffff

  /** One JSON value. A float is kept as the decimal literal that was handed
      to the float parser: its numeric value is not modelled. */
  datatype JsonType =
    | I64(i: i64)
    | F64(literal: string)
    | String(s: string)
    | Vec(items: seq<JsonType>)
    | Object(obj: Json)

  /** A JSON object: a hash map from key to value. */
  datatype Json = Json(attr: map<string, JsonType>)
  {
    /** `Json::new`: the object with no entries. */
    static function New(): (j: Json)
      ensures forall key :: j.GetVal(key) == None
    {
      Json(map[])
    }

    /** `Json::get_val`: the value stored under `key`, if any. */
    function GetVal(key: string): (r: Option<JsonType>)
      ensures r.Some? <==> key in attr
      ensures r.Some? ==> r.value == attr[key]
    {
      if key in attr then Some(attr[key]) else None
    }

    /** `Json::set_val`: store `val` under `key`, replacing any previous value. */
    function SetVal(key: string, val: JsonType): (r: Json)
      ensures r.GetVal(key) == Some(val)
      ensures forall k :: k != key ==> r.GetVal(k) == GetVal(k)
      ensures r.attr.Keys == attr.Keys + {key}
    {
      Json(attr[key := val])
    }
  }

  /** `From<&mut JsonType> for i64`: the integer payload, or 0 for any other variant. */
  function I64From(item: JsonType): (r: i64)
    ensures item.I64? ==> r == item.i
    ensures !item.I64? ==> r == 0
  {
    match item
    case I64(val) => val
    case _ => 0
  }

  /** `From<&mut JsonType> for String`: the text payload, or "" for any other variant. */
  function StringFrom(item: JsonType): (r: string)
    ensures item.String? ==> r == item.s
    ensures !item.String? ==> r == ""
  {
    match item
    case String(val) => val
    case _ => ""
  }

  /** Setting a key and reading it back yields the value just stored. */
  lemma SetThenGet(j: Json, key: string, val: JsonType)
    ensures j.SetVal(key, val).GetVal(key) == Some(val)
  {
  }

  /** A second `set_val` on the same key overwrites the first: last write wins. */
  lemma SetValLastWriteWins(j: Json, key: string, v1: JsonType, v2: JsonType)
    ensures j.SetVal(key, v1).SetVal(key, v2) == j.SetVal(key, v2)
  {
  }

  /** Setting two different keys gives the same object in either order. */
  lemma SetValCommutes(j: Json, k1: string, v1: JsonType, k2: string, v2: JsonType)
    requires k1 != k2
    ensures j.SetVal(k1, v1).SetVal(k2, v2) == j.SetVal(k2, v2).SetVal(k1, v1)
  {
  }

  /** A `Json` object as a caller holds it: `set_val` updates its map in place. */
  class JsonObject {
    var attr: map<string, JsonType>

    /** The object's current contents as a value. */
    function Value(): Json
      reads this
    {
      Json(attr)
    }

    /** `Json::new`. */
    constructor New()
      ensures Value() == Json.New()
    {
      attr := map[];
    }

    /** `Json::set_val`. */
    method SetVal(key: string, val: JsonType)
      modifies this
      ensures Value() == old(Value()).SetVal(key, val)
    {
      attr := attr[key := val];
    }

    /** `Json::get_val`. */
    method GetVal(key: string) returns (r: Option<JsonType>)
      ensures r == Value().GetVal(key)
      ensures r.Some? <==> key in attr
      ensures r.Some? ==> r.value == attr[key]
    {
      if key in attr {
        r := Some(attr[key]);
      } else {
        r := None;
      }
    }
  }

  /** The unit tests `set_and_get_val` and `get_null_val`, and an overwrite,
      as a caller sees them through the contracts alone: a fresh object has
      nothing under `"asd"`, a stored 123 reads back as the `i64` 123, and a
      second store replaces it. */
  method ObjectClient(other: JsonType)
    returns (missing: Option<JsonType>, asd: i64, replaced: Option<JsonType>)
    ensures missing == None
    ensures asd == 123
    ensures replaced == Some(other)
  {
    var json := new JsonObject.New();
    missing := json.GetVal("asd");
    json.SetVal("asd", I64(123));
    var got := json.GetVal("asd");
    asd := I64From(got.value);
    json.SetVal("asd", other);
    replaced := json.GetVal("asd");
  }
}
