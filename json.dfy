/** A stand-in for `serde_json::Value`: the generic JSON tree the client
    reads error bodies into and writes request bodies from, with the two
    accessors it uses (`Value::get`, `Value::as_str`) and its compact text
    form (`Value::to_string`). Numbers are integers here; floating-point
    JSON numbers are not part of this model. An object keeps its members in
    serde_json's order with distinct keys. */
module JsonValues {
  import opened Wrappers
  import opened Text

  datatype Json =
    | Null
    | Bool(b: bool)
    | Number(n: int)
    | Str(s: string)
    | Array(items: seq<Json>)
    | Object(members: seq<(string, Json)>)

  /** The value stored under `key` in a list of object members, if any. */
  function Member(members: seq<(string, Json)>, key: string): (r: Option<Json>)
    ensures r.Some? <==> exists i :: 0 <= i < |members| && members[i].0 == key
    ensures r.Some? ==> exists i :: 0 <= i < |members| && members[i] == (key, r.value)
  {
    if members == [] then None
    else if members[0].0 == key then Some(members[0].1)
    else Member(members[1..], key)
  }

  /** `Value::get(&str)`: a member of an object; any other kind of value has none. */
  function Get(j: Json, key: string): (r: Option<Json>)
    ensures r.Some? ==> j.Object?
    ensures j.Object? ==> r == Member(j.members, key)
  {
    if j.Object? then Member(j.members, key) else None
  }

  /** `Value::as_str` */
  function AsStr(j: Json): (r: Option<string>)
    ensures r.Some? <==> j.Str?
    ensures r.Some? ==> r.value == j.s
  {
    if j.Str? then Some(j.s) else None
  }

  function HexDigit(d: nat): char
    requires d < 16
  {
    if d < 10 then DigitChar(d) else (('a' as int) + d - 10) as char
  }

  /** How serde_json writes one character inside a string literal. */
  function EscapeChar(c: char): (r: string)
    ensures |r| >= 1
  {
    if c == '"' then "\\\""
    else if c == '\\' then "\\\\"
    else if c == '\n' then "\\n"
    else if c == '\r' then "\\r"
    else if c == '\t' then "\\t"
    else if c == 8 as char then "\\b"
    else if c == 12 as char then "\\f"
    else if (c as int) < 0x20 then "\\u00" + [HexDigit(c as int / 16), HexDigit(c as int % 16)]
    else [c]
  }

  function Escape(s: string): string {
    if s == [] then [] else EscapeChar(s[0]) + Escape(s[1..])
  }

  function IntString(n: int): string {
    if n < 0 then "-" + DecimalString(-n) else DecimalString(n)
  }

  /** `Value::to_string`: the compact text form, without spaces. */
  function Render(j: Json): (r: string)
    ensures |r| >= 1
    ensures j.Null? ==> r == "null"
    ensures j.Bool? ==> r == if j.b then "true" else "false"
    ensures j.Number? && j.n >= 0 ==> r == DecimalString(j.n)
    ensures j.Number? && j.n < 0 ==> r == "-" + DecimalString(-j.n)
    ensures j.Str? ==> |r| >= 2 && r[0] == '"' && r[|r| - 1] == '"'
    ensures j.Array? ==> |r| >= 2 && r[0] == '[' && r[|r| - 1] == ']'
    ensures j.Object? ==> |r| >= 2 && r[0] == '{' && r[|r| - 1] == '}'
    decreases j, 1
  {
    match j
    case Null => "null"
    case Bool(b) => if b then "true" else "false"
    case Number(n) => IntString(n)
    case Str(s) => "\"" + Escape(s) + "\""
    case Array(items) => "[" + RenderItems(j, items) + "]"
    case Object(members) => "{" + RenderMembers(j, members) + "}"
  }

  function RenderItems(parent: Json, items: seq<Json>): string
    requires forall x :: x in items ==> x < parent
    decreases parent, 0, |items|
  {
    if items == [] then ""
    else
      assert items[0] in items;
      assert forall x :: x in items[1..] ==> x in items;
      if |items| == 1 then Render(items[0])
      else Render(items[0]) + "," + RenderItems(parent, items[1..])
  }

  function RenderMembers(parent: Json, members: seq<(string, Json)>): string
    requires forall m :: m in members ==> m.1 < parent
    decreases parent, 0, |members|
  {
    if members == [] then ""
    else
      assert members[0] in members;
      assert forall m :: m in members[1..] ==> m in members;
      var head := "\"" + Escape(members[0].0) + "\":" + Render(members[0].1);
      if |members| == 1 then head else head + "," + RenderMembers(parent, members[1..])
  }
}
