/** A JSON document as the parser sees it: the shape of `serde_json::Value`
    and the accessors the parser uses on it. */
module Json {
  import opened Wrappers

  type u64 = x: int | 0 <= x < 0x1_0000_0000_0000_0000
  type NegI64 = x: int | -0x8000_0000_0000_0000 <= x < 0 witness -1

  /** A JSON number as serde_json stores it: a non-negative integer that fits
      in 64 bits, a negative integer that fits in 64 bits, or a float (kept
      abstract as a finite real). */
  datatype Number = PosInt(u: u64) | NegInt(i: NegI64) | Float(f: real)

  /** An object is a map from keys to values: serde_json's default object
      type is an ordered map with unique keys. */
  datatype Json =
    | JNull
    | JBool(b: bool)
    | JNum(n: Number)
    | JStr(s: string)
    | JArr(items: seq<Json>)
    | JObj(fields: map<string, Json>)
  {
    /** Indexing `v["k"]`: the value under `k` on an object that has it, and
        `null` for a missing key or for any value that is not an object. */
    function At(k: string): Json
    {
      if JObj? && k in fields then fields[k] else JNull
    }

    /** `as_array`: the elements of an array, nothing for any other value. */
    function AsArray(): Option<seq<Json>>
    {
      if JArr? then Some(items) else None
    }

    /** `as_str`: the text of a string, nothing for any other value. */
    function AsStr(): Option<string>
    {
      if JStr? then Some(s) else None
    }

    /** `as_u64`: only a non-negative integer converts; negative integers
        and floats (even `3.0`) give nothing. */
    function AsU64(): Option<u64>
    {
      if JNum? && n.PosInt? then Some(n.u) else None
    }

    /** `is_array`. */
    predicate IsArray() {
      JArr?
    }
  }

  /** A JSON integer literal such as the `40` in `json!({"limit": 40})`. */
  function Int(u: u64): Json {
    JNum(PosInt(u))
  }
}
