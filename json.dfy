/** JSON values as the client receives them from the tool host and from
    `JSON.parse`, and JavaScript's `String(...)` conversion of such a value. */
module Json {

  import opened Wrappers

  /** A JSON value. Numbers are integers here; object keys are unique, as
      after `JSON.parse` (a repeated key keeps its last value). */
  datatype Json =
    | JNull
    | JBool(b: bool)
    | JNumber(n: int)
    | JString(s: string)
    | JArray(elements: seq<Json>)
    | JObject(fields: map<string, Json>)  // key order is not kept

  /** A UTF-16 code unit: JavaScript strings are sequences of these, and
      their `length` and `slice` count them. */
  newtype CodeUnit = x: int | 0 <= x < 0x1_0000

  /** A JavaScript string, as the code units it is made of. */
  type JsText = seq<CodeUnit>

  /** The UTF-16 encoding of one character: itself if it lies in the Basic
      Multilingual Plane, otherwise a high and a low surrogate. */
  function EncodeChar(c: char): (r: JsText)
    ensures 1 <= |r| <= 2
    ensures |r| == 2 <==> c as int >= 0x1_0000
  {
    var v := c as int;
    if v < 0x1_0000 then [v as CodeUnit]
    else [(0xD800 + (v - 0x1_0000) / 0x400) as CodeUnit, (0xDC00 + (v - 0x1_0000) % 0x400) as CodeUnit]
  }

  /** The JavaScript string holding the characters of `s`. */
  function Utf16(s: string): (r: JsText)
    ensures |s| <= |r| <= 2 * |s|
  {
    if s == [] then [] else EncodeChar(s[0]) + Utf16(s[1..])
  }

  /** A string of Basic Multilingual Plane characters has one code unit per character. */
  lemma {:induction false} Utf16Bmp(s: string)
    requires forall i :: 0 <= i < |s| ==> s[i] as int < 0x1_0000
    ensures |Utf16(s)| == |s|
    ensures forall i :: 0 <= i < |s| ==> Utf16(s)[i] as int == s[i] as int
  {
    if s != [] {
      Utf16Bmp(s[1..]);
    }
  }

  /** A string of characters outside the Basic Multilingual Plane has two code units per character. */
  lemma {:induction false} Utf16Astral(s: string)
    requires forall i :: 0 <= i < |s| ==> s[i] as int >= 0x1_0000
    ensures |Utf16(s)| == 2 * |s|
  {
    if s != [] {
      Utf16Astral(s[1..]);
    }
  }

  /** The decimal digits of a natural number, most significant first. */
  function NatToDecimal(n: nat): (r: string)
    ensures |r| > 0
    ensures forall i :: 0 <= i < |r| ==> '0' <= r[i] <= '9'
    decreases n
  {
    var d := [(('0' as int) + n % 10) as char];
    if n < 10 then d else NatToDecimal(n / 10) + d
  }

  function IntToDecimal(n: int): string {
    if n < 0 then "-" + NatToDecimal(-n) else NatToDecimal(n)
  }

  /** JavaScript's `String(v)`: strings are themselves, objects print as
      "[object Object]", and an array prints its elements joined by ","
      (a null element printing as nothing). */
  function JsString(v: Json): string
    decreases v
  {
    match v
    case JNull => "null"
    case JBool(b) => if b then "true" else "false"
    case JNumber(n) => IntToDecimal(n)
    case JString(s) => s
    case JObject(_) => "[object Object]"
    case JArray(es) =>
      CommaJoin(seq(|es|, i requires 0 <= i < |es| => if es[i].JNull? then "" else JsString(es[i])))
  }

  function CommaJoin(parts: seq<string>): string {
    if |parts| == 0 then ""
    else if |parts| == 1 then parts[0]
    else parts[0] + "," + CommaJoin(parts[1..])
  }

  /** How `Array.prototype.join` renders a value it finds in the array: a
      missing (`None`) or null value as the empty string, anything else as
      `String(v)`. */
  function JoinRendering(v: Option<Json>): string {
    match v
    case None => ""
    case Some(JNull) => ""
    case Some(j) => JsString(j)
  }
}
