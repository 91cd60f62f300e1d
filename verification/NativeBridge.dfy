/**
 * The Android side of the bridge: the `org.json` behaviour the plugin relies
 * on, and the plugin results sent back to JavaScript callback contexts.
 */
module NativeBridge {
  import opened Json
  import opened Wrappers

  /** A JavaScript callback context, by identity. */
  type Context = nat

  datatype Status = Ok | Error

  /** One `sendPluginResult`: the context, the status, the payload and the keep-callback flag. */
  datatype PluginResult = PluginResult(context: Context, status: Status, message: Value, keepCallback: bool)

  function LowerAscii(c: char): char {
    if 'A' <= c <= 'Z' then (c as int + 32) as char else c
  }

  /** `String.equalsIgnoreCase`, with ASCII case folding. */
  predicate EqualsIgnoreCase(s: string, t: string) {
    |s| == |t| && forall i :: 0 <= i < |s| ==> LowerAscii(s[i]) == LowerAscii(t[i])
  }

  /**
   * `getBoolean`'s coercion: a boolean, or a string reading "true" or "false"
   * in any case; anything else is a type mismatch (`None`).
   */
  function JavaBoolean(v: Value): (r: Option<bool>)
    ensures v.Bool? ==> r == Some(v.b)
    ensures r == Some(true) <==> v == Bool(true) || (v.Str? && EqualsIgnoreCase(v.s, "true"))
    ensures r == Some(false) <==> v == Bool(false) || (v.Str? && EqualsIgnoreCase(v.s, "false"))
    ensures !v.Bool? && !v.Str? ==> r == None
  {
    match v
    case Bool(b) => Some(b)
    case Str(s) =>
      if EqualsIgnoreCase(s, "true") then Some(true)
      else if EqualsIgnoreCase(s, "false") then Some(false)
      else None
    case _ => None
  }

  /** `getString`/`optString`'s coercion: a string as it is, anything else through `String.valueOf`. */
  function JavaString(v: Value, valueOf: Value -> string): (s: string)
    ensures v.Str? ==> s == v.s
  {
    if v.Str? then v.s else valueOf(v)
  }

  /** `JSONArray.getString(i)`: fails only when the index is out of range. */
  function ArrayGetString(data: seq<Value>, i: nat, valueOf: Value -> string): (r: Option<string>)
    ensures r.Some? <==> i < |data|
    ensures i < |data| && data[i].Str? ==> r == Some(data[i].s)
  {
    if i < |data| then Some(JavaString(data[i], valueOf)) else None
  }

  /** `JSONArray.getBoolean(i)`. */
  function ArrayGetBoolean(data: seq<Value>, i: nat): (r: Option<bool>)
    ensures r.Some? ==> i < |data|
    ensures i < |data| ==> r == JavaBoolean(data[i])
  {
    if i < |data| then JavaBoolean(data[i]) else None
  }

  /** `JSONObject.getBoolean(key)`: fails when the key is missing or the value is not a boolean. */
  function GetBoolean(fields: map<string, Value>, key: string): (r: Option<bool>)
    ensures key !in fields ==> r == None
    ensures key in fields ==> r == JavaBoolean(fields[key])
  {
    if key in fields then JavaBoolean(fields[key]) else None
  }

  /** A mutable `org.json.JSONObject`. */
  class JSONObject {
    var fields: map<string, Value>

    constructor (fields: map<string, Value>)
      ensures this.fields == fields
    {
      this.fields := fields;
    }

    /** `put(key, value)` with a non-null value. */
    method Put(key: string, value: Value)
      modifies this
      ensures fields == old(fields)[key := value]
    {
      fields := fields[key := value];
    }

    /** `put(key, value)` where `value` may be a Java `null`, which removes the key. */
    method PutOrRemove(key: string, value: Option<Value>)
      modifies this
      ensures value.Some? ==> fields == old(fields)[key := value.value]
      ensures value.None? ==> fields == old(fields) - {key}
    {
      if value.Some? {
        fields := fields[key := value.value];
      } else {
        fields := fields - {key};
      }
    }

    method Remove(key: string)
      modifies this
      ensures fields == old(fields) - {key}
    {
      fields := fields - {key};
    }
  }

  /** Every plugin result sent so far. */
  class CallbackLog {
    var results: seq<PluginResult>

    constructor ()
      ensures results == []
    {
      results := [];
    }

    /** `callbackSuccess(context, json)`: a null object is sent as `{}`, and the callback is kept. */
    method CallbackSuccess(context: Context, json: Option<map<string, Value>>)
      modifies this
      ensures results == old(results) + [PluginResult(context, Ok, Obj(json.GetOr(map[])), true)]
    {
      results := results + [PluginResult(context, Ok, Obj(json.GetOr(map[])), true)];
    }

    method CallbackSuccessBoolean(context: Context, b: bool)
      modifies this
      ensures results == old(results) + [PluginResult(context, Ok, Bool(b), true)]
    {
      results := results + [PluginResult(context, Ok, Bool(b), true)];
    }

    method CallbackError(context: Context, message: string)
      modifies this
      ensures results == old(results) + [PluginResult(context, Error, Str(message), true)]
    {
      results := results + [PluginResult(context, Error, Str(message), true)];
    }
  }

  /**
   * An illustration of `JavaBoolean` on four inputs, not a further property:
   * case is ignored in boolean text, and nothing but the two words is accepted.
   */
  lemma BooleanTextExamples()
    ensures JavaBoolean(Str("TRUE")) == Some(true)
    ensures JavaBoolean(Str("False")) == Some(false)
    ensures JavaBoolean(Str("yes")) == None
    ensures JavaBoolean(Num(1)) == None
  {
    assert EqualsIgnoreCase("TRUE", "true") by {
      assert LowerAscii('T') == 't' && LowerAscii('R') == 'r' && LowerAscii('U') == 'u' && LowerAscii('E') == 'e';
    }
    assert EqualsIgnoreCase("False", "false") by {
      assert LowerAscii('F') == 'f';
    }
  }
}
