/** JSON values and the accessors of Android's `org.json` library that the app calls.
    Numbers are fixed-point hundredths (see module Decimal); object fields keep their
    insertion order, as the library's `LinkedHashMap` does. */
module Json {
  import opened Wrappers
  import opened Text
  import opened Decimal

  datatype Json =
    | JNull
    | JBool(b: bool)
    | JNum(hundredths: int)
    | JStr(s: string)
    | JArr(items: seq<Json>)
    | JObj(fields: JsonObject)

  datatype Field = Field(name: string, value: Json)

  /** A `JSONObject`: its fields in insertion order. */
  type JsonObject = seq<Field>

  /** `JSONObject.opt(name)`: the value stored under `name`, if any. */
  function Opt(obj: JsonObject, name: string): (r: Option<Json>)
    ensures r.Some? <==> exists i :: 0 <= i < |obj| && obj[i].name == name
    ensures r.Some? ==> exists i :: 0 <= i < |obj| && obj[i] == Field(name, r.value)
  {
    if obj == [] then None
    else if obj[0].name == name then Some(obj[0].value)
    else
      var r := Opt(obj[1..], name);
      assert forall i :: 0 < i < |obj| ==> obj[i] == obj[1..][i - 1];
      assert r.Some? ==> exists i :: 0 <= i < |obj[1..]| && obj[1..][i] == Field(name, r.value);
      r
  }

  /** `JSONObject(text)`: the object the text holds. `parse` stands for the library's
      tokenizer, giving the parsed value or the message of its `JSONException`. When the
      text holds a value that is not an object, the library throws a type-mismatch
      `JSONException`; that message is abstract here. It names the value but not the
      value's class, and strings appear in their JSON form, so its wording is not the
      library's. */
  function ParseObject(text: string, parse: string -> Result<Json, string>): (r: Result<JsonObject, string>)
    ensures r.Ok? <==> parse(text).Ok? && parse(text).value.JObj?
    ensures r.Ok? ==> parse(text).value == JObj(r.value)
  {
    match parse(text)
    case Err(message) => Err(message)
    case Ok(JObj(fields)) => Ok(fields)
    case Ok(other) => Err("Value " + Encode(other) + " cannot be converted to JSONObject")
  }

  /** `JSONObject.has(name)`: some value, null included, is stored under `name`. */
  predicate Has(obj: JsonObject, name: string) {
    Opt(obj, name).Some?
  }

  /** `JSONObject.isNull(name)`: nothing is stored under `name`, or JSON null is. */
  predicate IsNull(obj: JsonObject, name: string) {
    Opt(obj, name) == None || Opt(obj, name) == Some(JNull)
  }

  /** `JSONObject.optString(name, fallback)`: a string as it is, any other stored value
      (JSON null included) as its text, and `fallback` when nothing is stored. */
  function OptString(obj: JsonObject, name: string, fallback: string): string {
    match Opt(obj, name)
    case None => fallback
    case Some(v) => ValueText(v)
  }

  /** `JSONObject.optJSONArray(name)`. */
  function OptArray(obj: JsonObject, name: string): Option<seq<Json>> {
    match Opt(obj, name)
    case Some(JArr(items)) => Some(items)
    case _ => None
  }

  /** `JSONObject.optJSONObject(name)`. */
  function OptObject(obj: JsonObject, name: string): Option<JsonObject> {
    match Opt(obj, name)
    case Some(JObj(fields)) => Some(fields)
    case _ => None
  }

  /** `JSONObject.optDouble(name, fallback)`: a number, or a string that reads as one. */
  function OptDouble(obj: JsonObject, name: string, fallback: int): int {
    match Opt(obj, name)
    case Some(JNum(n)) => n
    case Some(JStr(s)) => ParseDecimal(s).GetOr(fallback)
    case _ => fallback
  }

  /** `JSONArray.optJSONObject(index)`: the item at `index` when it is an object. */
  function ItemObject(items: seq<Json>, index: int): Option<JsonObject> {
    if 0 <= index < |items| && items[index].JObj? then Some(items[index].fields) else None
  }

  /** `String.valueOf` of a stored value: strings unquoted, everything else as JSON text. */
  function ValueText(v: Json): string {
    if v.JStr? then v.s else Encode(v)
  }

  /** The JSON text `toString()` writes for a value. */
  function Encode(v: Json): string {
    match v
    case JNull => "null"
    case JBool(b) => if b then "true" else "false"
    case JNum(n) => NumberText(n)
    case JStr(s) => Quote(s)
    case JArr(items) =>
      "[" + Join(seq(|items|, i requires 0 <= i < |items| => Encode(items[i])), ",") + "]"
    case JObj(fields) =>
      "{" + Join(seq(|fields|, i requires 0 <= i < |fields| =>
        Quote(fields[i].name) + ":" + Encode(fields[i].value)), ",") + "}"
  }

  function HexDigit(d: nat): char
    requires d < 16
  {
    if d < 10 then DigitChar(d) else ('a' as int + d - 10) as char
  }

  /** How `JSONStringer` escapes one character of a string. */
  function EscapeChar(c: char): string {
    if c == '"' || c == '\\' || c == '/' then ['\\', c]
    else if c == '\t' then "\\t"
    else if c == '\U{8}' then "\\b"
    else if c == '\n' then "\\n"
    else if c == '\r' then "\\r"
    else if c == '\U{C}' then "\\f"
    else if c as int <= 0x1F then "\\u00" + [HexDigit(c as int / 16), HexDigit(c as int % 16)]
    else [c]
  }

  function Escape(s: string): string {
    if s == [] then "" else EscapeChar(s[0]) + Escape(s[1..])
  }

  function Quote(s: string): (r: string)
    ensures |r| >= 2 && r[0] == '"'
  {
    "\"" + Escape(s) + "\""
  }

  /** The text of anything but a string starts with a character that is not whitespace. */
  lemma EncodeNotBlank(v: Json)
    ensures |Encode(v)| > 0 && !IsWhitespace(Encode(v)[0])
  {
    match v
    case JNum(n) =>
      var digits := NatToString(Abs(n) / 100);
      if n >= 0 {
        assert Encode(v)[0] == digits[0];
      }
    case _ =>
  }

  /** Looking a name up in an object whose first field has that name gives that field. */
  lemma OptFirst(name: string, value: Json, rest: JsonObject)
    ensures Opt([Field(name, value)] + rest, name) == Some(value)
  {
  }

  /** The first field with a name is the one looked up. */
  lemma {:induction false} OptAt(obj: JsonObject, k: nat, name: string)
    requires k < |obj| && obj[k].name == name
    requires forall j :: 0 <= j < k ==> obj[j].name != name
    ensures Opt(obj, name) == Some(obj[k].value)
  {
    if k > 0 {
      assert obj[1..][k - 1] == obj[k];
      OptAt(obj[1..], k - 1, name);
    }
  }

  /** A field is found past fields with other names. */
  lemma OptSkip(f: Field, rest: JsonObject, name: string)
    requires f.name != name
    ensures Opt([f] + rest, name) == Opt(rest, name)
  {
    assert ([f] + rest)[1..] == rest;
  }
}
