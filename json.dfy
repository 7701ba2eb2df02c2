/** JavaScript values as JSON sees them, `JSON.stringify` (compact and with a
    two-space indent), and the property reads the hops perform on parsed
    values (`v.key`, `v[0]`, `typeof`, truthiness, `String(v)`).
    `JSON.parse` is a library call: it is a parameter of type `Parser`, and the
    one fact the model relies on about it is `ParseInvertsStringify`. */
module Json {
  import opened Wrappers
  import opened Text

  /** A character of a JavaScript number's `ToString` form of a finite number. */
  predicate NumeralChar(c: char) {
    ('0' <= c <= '9') || c == '-' || c == '+' || c == '.' || c == 'e'
  }

  predicate IsNumeral(t: string) {
    |t| >= 1 && forall i :: 0 <= i < |t| ==> NumeralChar(t[i])
  }

  /** A finite JavaScript number, held as the text `String(n)` gives for it. */
  type Numeral = t: string | IsNumeral(t) witness "0"

  /** A value `JSON.parse` can produce; an object's fields are its own
      properties in enumeration order, with distinct names. */
  datatype Json =
    | JNull
    | JBool(b: bool)
    | JNum(text: Numeral)
    | JStr(s: string)
    | JArr(items: seq<Json>)
    | JObj(fields: seq<(string, Json)>)

  /** `JSON.parse`: `None` where it throws. */
  type Parser = string -> Option<Json>

  function HexDigit(n: nat): char
    requires n < 16
  {
    if n < 10 then ('0' as int + n) as char else ('a' as int + n - 10) as char
  }

  /** How `JSON.stringify` writes one character inside a string literal. */
  function EscapeChar(c: char): string
  {
    if c == '"' then "\\\""
    else if c == '\\' then "\\\\"
    else if c == '\U{8}' then "\\b"
    else if c == '\U{C}' then "\\f"
    else if c == '\n' then "\\n"
    else if c == '\r' then "\\r"
    else if c == '\t' then "\\t"
    else if c < ' ' then "\\u00" + [HexDigit(c as int / 16), HexDigit(c as int % 16)]
    else [c]
  }

  function Escape(s: string): string
  {
    if s == [] then [] else EscapeChar(s[0]) + Escape(s[1..])
  }

  /** A string literal. */
  function Quote(s: string): string
  {
    "\"" + Escape(s) + "\""
  }

  /** The number of elements of an array or fields of an object. */
  function Size(j: Json): nat
    requires IsObject(j)
  {
    if j.JArr? then |j.items| else |j.fields|
  }

  /** `JSON.stringify(j)`. */
  function Stringify(j: Json): string
    decreases j, 1, 0
  {
    match j
    case JNull => "null"
    case JBool(b) => if b then "true" else "false"
    case JNum(t) => t
    case JStr(s) => Quote(s)
    case JArr(_) => "[" + StringifyFrom(j, 0) + "]"
    case JObj(_) => "{" + StringifyFrom(j, 0) + "}"
  }

  /** Element `i` of an array, or `"name":value` for field `i` of an
      object, written compactly. */
  function StringifyEntry(j: Json, i: nat): string
    requires IsObject(j) && i < Size(j)
    decreases j, 0, 1
  {
    if j.JArr? then Stringify(j.items[i])
    else Quote(j.fields[i].0) + ":" + Stringify(j.fields[i].1)
  }

  /** The compact entries of an array or object from `from` on, separated
      by commas. */
  function StringifyFrom(j: Json, from: nat): string
    requires IsObject(j) && from <= Size(j)
    decreases j, 0, 2 + Size(j) - from
  {
    if from == Size(j) then ""
    else if from + 1 == Size(j) then StringifyEntry(j, from)
    else StringifyEntry(j, from) + "," + StringifyFrom(j, from + 1)
  }

  /** `JSON.stringify(j, null, 2)` for a value nested at `indent`. */
  function Pretty(j: Json, indent: string): string
    decreases j, 1, 0
  {
    match j
    case JArr(items) =>
      if items == [] then "[]" else "[\n" + indent + "  " + PrettyFrom(j, 0, indent + "  ") + "\n" + indent + "]"
    case JObj(fields) =>
      if fields == [] then "{}" else "{\n" + indent + "  " + PrettyFrom(j, 0, indent + "  ") + "\n" + indent + "}"
    case _ => Stringify(j)
  }

  /** Entry `i` of an array or object written at the indent `inner` of its
      entries. */
  function PrettyEntry(j: Json, i: nat, inner: string): string
    requires IsObject(j) && i < Size(j)
    decreases j, 0, 1
  {
    if j.JArr? then Pretty(j.items[i], inner)
    else Quote(j.fields[i].0) + ": " + Pretty(j.fields[i].1, inner)
  }

  /** The entries from `from` on, each on a line of its own at `inner`. */
  function PrettyFrom(j: Json, from: nat, inner: string): string
    requires IsObject(j) && from <= Size(j)
    decreases j, 0, 2 + Size(j) - from
  {
    if from == Size(j) then ""
    else if from + 1 == Size(j) then PrettyEntry(j, from, inner)
    else PrettyEntry(j, from, inner) + ",\n" + inner + PrettyFrom(j, from + 1, inner)
  }

  /** `JSON.stringify(j, null, 2)`. */
  function StringifyPretty(j: Json): string
  {
    Pretty(j, "")
  }

  /** The value of the first field named `key`. */
  function Lookup(fields: seq<(string, Json)>, key: string): (r: Option<Json>)
    ensures r.Some? ==> (key, r.value) in fields
    ensures r.None? ==> forall i :: 0 <= i < |fields| ==> fields[i].0 != key
  {
    if fields == [] then None
    else if fields[0].0 == key then Some(fields[0].1)
    else Lookup(fields[1..], key)
  }

  /** The field at `i` is what a lookup of its name finds when no earlier
      field has that name. */
  lemma {:induction false} LookupAt(fields: seq<(string, Json)>, i: nat)
    requires i < |fields|
    requires forall m :: 0 <= m < i ==> fields[m].0 != fields[i].0
    ensures Lookup(fields, fields[i].0) == Some(fields[i].1)
  {
    if i > 0 {
      assert fields[1..][i - 1] == fields[i];
      LookupAt(fields[1..], i - 1);
    }
  }

  /** `j[key]` for a property name that is not inherited: an object's own
      property, `undefined` (None) for every other value. */
  function Prop(j: Json, key: string): Option<Json>
  {
    match j
    case JObj(fields) => Lookup(fields, key)
    case _ => None
  }

  /** `j[key]` when `typeof j[key] === "string"`. */
  function StrProp(j: Json, key: string): (r: Option<string>)
    ensures r.Some? <==> Prop(j, key).Some? && Prop(j, key).value.JStr?
    ensures r.Some? ==> Prop(j, key) == Some(JStr(r.value))
  {
    match Prop(j, key)
    case Some(JStr(s)) => Some(s)
    case _ => None
  }

  /** `j[key]` when `Array.isArray(j[key])`. */
  function ArrProp(j: Json, key: string): (r: Option<seq<Json>>)
    ensures r.Some? <==> Prop(j, key).Some? && Prop(j, key).value.JArr?
    ensures r.Some? ==> Prop(j, key) == Some(JArr(r.value))
  {
    match Prop(j, key)
    case Some(JArr(items)) => Some(items)
    case _ => None
  }

  /** `j[0]`: an array's first element, an object's property "0", a
      string's first character; `undefined` otherwise. */
  function At0(j: Json): Option<Json>
  {
    match j
    case JArr(items) => if |items| > 0 then Some(items[0]) else None
    case JObj(fields) => Lookup(fields, "0")
    case JStr(s) => if |s| > 0 then Some(JStr([s[0]])) else None
    case _ => None
  }

  /** `j.choices[0]` for an optional value. */
  function AtOpt0(o: Option<Json>): Option<Json>
  {
    match o
    case Some(j) => At0(j)
    case None => None
  }

  /** `j[key]` for an optional value, short-circuiting on `undefined`. */
  function PropOpt(o: Option<Json>, key: string): Option<Json>
  {
    match o
    case Some(j) => Prop(j, key)
    case None => None
  }

  /** JavaScript truthiness (a number's text is "0" for both zeros). */
  predicate Truthy(j: Json)
  {
    match j
    case JNull => false
    case JBool(b) => b
    case JNum(t) => t != "0"
    case JStr(s) => s != ""
    case _ => true
  }

  /** Truthiness of a value that may be `undefined`. */
  predicate Present(o: Option<Json>)
  {
    o.Some? && Truthy(o.value)
  }

  /** `typeof j === "object" && j !== null`. */
  predicate IsObject(j: Json)
  {
    j.JArr? || j.JObj?
  }

  /** What `${e}` gives for the TypeError V8 raises when `String` finds no
      primitive value for an object. */
  const ConvertError := "TypeError: Cannot convert object to primitive value"

  /** `String(j)` throws: for an object with its own `toString` key (no JSON
      value is callable, so the conversion falls through to `valueOf`, which
      gives the object back), and for an array holding such an object at any
      depth. */
  predicate ConvertThrows(j: Json)
  {
    match j
    case JObj(fields) => exists i :: 0 <= i < |fields| && fields[i].0 == "toString"
    case JArr(items) => exists i :: 0 <= i < |items| && ConvertThrows(items[i])
    case _ => false
  }

  /** `String(j)`, as template literals and `Array.prototype.join` convert a
      value (join writes `null` elements as the empty string). */
  function ToJsString(j: Json): (r: Attempt<string>)
    ensures r.Threw? <==> ConvertThrows(j)
    ensures r.Threw? ==> r.error == ConvertError
    ensures j.JNull? ==> r == Returned("null")
    ensures j.JBool? ==> r == Returned(if j.b then "true" else "false")
    ensures j.JNum? ==> r == Returned(j.text)
    ensures j.JStr? ==> r == Returned(j.s)
    ensures j.JObj? && !ConvertThrows(j) ==> r == Returned("[object Object]")
    decreases j
  {
    match j
    case JNull => Returned("null")
    case JBool(b) => Returned(if b then "true" else "false")
    case JNum(t) => Returned(t)
    case JStr(s) => Returned(s)
    case JArr(items) =>
      var texts := seq(|items|, i requires 0 <= i < |items| => if items[i].JNull? then Returned("") else ToJsString(items[i]));
      assert forall i :: 0 <= i < |items| ==> (texts[i].Threw? <==> ConvertThrows(items[i]));
      if forall i :: 0 <= i < |items| ==> texts[i].Returned? then
        Returned(Join(seq(|items|, i requires 0 <= i < |items| => texts[i].value), ","))
      else Threw(ConvertError)
    case JObj(fields) =>
      if exists i :: 0 <= i < |fields| && fields[i].0 == "toString" then Threw(ConvertError) else Returned("[object Object]")
  }

  /** `{raw: text}`, the wrapper the hops use for a body that is not JSON. */
  function RawRecord(text: string): Json
  {
    JObj([("raw", JStr(text))])
  }

  /** `JSON.parse(text)`, or `{raw: text}` where it throws. */
  function ParseOrRaw(parse: Parser, text: string): (r: Json)
    ensures parse(text).Some? ==> r == parse(text).value
    ensures parse(text).None? ==> r == RawRecord(text)
  {
    parse(text).GetOr(RawRecord(text))
  }

  /** An array of strings. */
  function StrArray(xs: seq<string>): (r: Json)
    ensures r.JArr? && |r.items| == |xs|
    ensures forall i :: 0 <= i < |xs| ==> r.items[i] == JStr(xs[i])
  {
    JArr(seq(|xs|, i requires 0 <= i < |xs| => JStr(xs[i])))
  }

  /** A number text that `JSON.parse` reads back to the same text: an
      integer of at most fifteen digits, without a leading zero or "-0". */
  predicate SafeIntText(t: string)
  {
    t == "0"
    || (var d := if |t| > 0 && t[0] == '-' then t[1..] else t;
        1 <= |d| <= 15 && '1' <= d[0] <= '9' && forall i :: 0 <= i < |d| ==> '0' <= d[i] <= '9')
  }

  /** An all-digit property name, which JavaScript enumerates before the others. */
  predicate IndexLike(k: string)
  {
    k != "" && forall i :: 0 <= i < |k| ==> '0' <= k[i] <= '9'
  }

  /** No key appears twice among the fields. */
  predicate DistinctKeys(fields: seq<(string, Json)>)
  {
    forall i, k :: 0 <= i < k < |fields| ==> fields[i].0 != fields[k].0
  }

  /** A value that survives `JSON.parse(JSON.stringify(j))` unchanged: safe
      integers only, and objects whose field names are distinct and not
      index-like (so enumeration order is insertion order). */
  predicate Plain(j: Json)
    decreases j
  {
    match j
    case JNum(t) => SafeIntText(t)
    case JArr(items) => forall i :: 0 <= i < |items| ==> Plain(items[i])
    case JObj(fields) =>
      DistinctKeys(fields)
      && forall i :: 0 <= i < |fields| ==> !IndexLike(fields[i].0) && Plain(fields[i].1)
    case _ => true
  }

  /** The assumption about the library: `JSON.parse` inverts `JSON.stringify`
      on plain values. */
  ghost predicate ParseInvertsStringify(parse: Parser)
  {
    forall j :: Plain(j) ==> parse(Stringify(j)) == Some(j)
  }

  /** A name that starts with a non-digit is not index-like. */
  lemma NotIndexLike(k: string)
    requires k != "" && !('0' <= k[0] <= '9')
    ensures !IndexLike(k)
  {
  }

  /** An array of strings is plain. */
  lemma StrArrayPlain(xs: seq<string>)
    ensures Plain(StrArray(xs))
  {
  }

  /** No escape sequence contains a line feed. */
  lemma EscapeNoLineFeed(s: string)
    ensures '\n' !in Escape(s)
  {
    if s != [] {
      EscapeNoLineFeed(s[1..]);
    }
  }

  /** `JSON.stringify` never writes a raw line feed: line feeds inside strings
      are escaped, and the compact form has no layout. */
  lemma {:induction false} StringifyNoLineFeed(j: Json)
    ensures '\n' !in Stringify(j)
    decreases j, 1, 0
  {
    match j
    case JNull =>
    case JBool(_) =>
    case JNum(t) =>
      assert forall i :: 0 <= i < |t| ==> NumeralChar(t[i]);
    case JStr(s) =>
      EscapeNoLineFeed(s);
    case JArr(_) =>
      EntriesNoLineFeed(j, 0);
    case JObj(_) =>
      EntriesNoLineFeed(j, 0);
  }

  /** The compact entries of an array or object have no line feed either. */
  lemma {:induction false} EntriesNoLineFeed(j: Json, from: nat)
    requires IsObject(j) && from <= Size(j)
    ensures '\n' !in StringifyFrom(j, from)
    decreases j, 0, 2 + Size(j) - from
  {
    if from < Size(j) {
      if j.JArr? {
        StringifyNoLineFeed(j.items[from]);
      } else {
        EscapeNoLineFeed(j.fields[from].0);
        StringifyNoLineFeed(j.fields[from].1);
      }
      if from + 1 < Size(j) {
        EntriesNoLineFeed(j, from + 1);
      }
    }
  }

  /** An object or array is written between its brackets, so its compact
      form is non-empty and has no white space at either end. */
  lemma StringifyBracketed(j: Json)
    requires IsObject(j)
    ensures var s := Stringify(j);
      |s| >= 2
      && s[0] == (if j.JArr? then '[' else '{')
      && s[|s| - 1] == (if j.JArr? then ']' else '}')
      && Trim(s) == s
  {
    TrimOfTrimmed(Stringify(j));
  }
}
