/** JSON-like values as the server's handlers and the in-memory store see them, with the
    handful of JavaScript coercions the business rules rely on: truthiness, strict equality,
    `Number(...)`, the `>` comparison, `String(...).slice(0, n)`, `includes`, `split`. */
module Values {

  datatype Option<T> = None | Some(value: T)

  /** A JavaScript value as it can sit in a request body or a stored document.
      `Num` is always a finite number: NaN is represented by `ToNumber` returning `None`.
      `Time` is a `Date` object, held as its millisecond instant. */
  datatype Value =
    | Undefined
    | Null
    | Bool(b: bool)
    | Num(x: real)
    | Str(s: string)
    | Time(ms: int)
    | Arr(items: seq<Value>)
    | Obj(fields: map<string, Value>)

  /** A document: an object's own enumerable properties. */
  type Doc = map<string, Value>

  /** Property access `d[k]`: a missing property reads as `undefined`. */
  function Get(d: Doc, k: string): (v: Value)
    ensures k !in d ==> v == Undefined
    ensures k in d ==> v == d[k]
  {
    if k in d then d[k] else Undefined
  }

  /** JavaScript truthiness (`!v` is its negation). */
  predicate Truthy(v: Value) {
    match v
    case Undefined => false
    case Null => false
    case Bool(b) => b
    case Num(x) => x != 0.0
    case Str(s) => s != ""
    case Time(_) => true
    case Arr(_) => true
    case Obj(_) => true
  }

  /** `a === b`. Dates, arrays and objects are compared by identity; two values built
      separately are never the same object, so `===` on them is false. */
  predicate StrictEq(a: Value, b: Value) {
    a == b && IsPrimitive(a)
  }

  /** A primitive value, as opposed to an object (a date, an array, a plain object). */
  predicate IsPrimitive(v: Value) {
    v.Undefined? || v.Null? || v.Bool? || v.Num? || v.Str?
  }

  predicate IsDigit(c: char) { '0' <= c <= '9' }

  function DigitsValue(s: string): (n: nat)
    requires forall i :: 0 <= i < |s| ==> IsDigit(s[i])
  {
    if s == [] then 0
    else
      assert IsDigit(s[|s| - 1]);
      DigitsValue(s[..|s| - 1]) * 10 + (s[|s| - 1] as int - '0' as int)
  }

  /** `Number(s)` for text: the empty string is 0 and a run of decimal digits is its value;
      every other text is read as NaN (`None`). */
  function ParseNumber(s: string): (r: Option<real>)
    ensures s == "" ==> r == Some(0.0)
    ensures r.Some? ==> r.value >= 0.0
  {
    if s == "" then Some(0.0)
    else if forall i :: 0 <= i < |s| ==> IsDigit(s[i]) then Some(DigitsValue(s) as real)
    else None
  }

  /** `Number(v)`; `None` stands for NaN. An array is read through its text, the elements
      joined by commas: the empty array is 0, an array of two or more elements is NaN (its
      text holds a comma), and a one-element array is the number of its element's text, so
      `[7]` and `["7"]` are 7, `[null]` is 0 and `[true]` is NaN. */
  function ToNumber(v: Value): (r: Option<real>)
    ensures v.Num? ==> r == Some(v.x)
    ensures v.Undefined? ==> r == None
    ensures v.Null? ==> r == Some(0.0)
    ensures v == Arr([]) ==> r == Some(0.0)
    ensures v.Arr? && |v.items| >= 2 ==> r == None
    ensures v.Arr? && |v.items| == 1 && (v.items[0].Num? || v.items[0].Str?) ==> r == ToNumber(v.items[0])
  {
    match v
    case Undefined => None
    case Null => Some(0.0)
    case Bool(b) => Some(if b then 1.0 else 0.0)
    case Num(x) => Some(x)
    case Str(s) => ParseNumber(s)
    case Time(ms) => Some(ms as real)
    case Arr(items) =>
      if |items| == 0 then Some(0.0)
      else if |items| >= 2 then None
      else
        (match items[0]
         case Undefined => Some(0.0)
         case Null => Some(0.0)
         case Bool(_) => None
         case Time(_) => None
         case _ => ToNumber(items[0]))
    case Obj(_) => None
  }

  /** A character's UTF-16 code units: itself below U+10000, otherwise its surrogate pair. */
  function CodeUnitsOf(c: char): (u: seq<int>)
    ensures 1 <= |u| <= 2 && (|u| == 1 <==> c as int < 0x1_0000)
    ensures |u| == 2 ==> 0xD800 <= u[0] < 0xDC00 <= u[1] < 0xE000
  {
    var n := c as int;
    if n < 0x1_0000 then [n] else [0xD800 + (n - 0x1_0000) / 0x400, 0xDC00 + (n - 0x1_0000) % 0x400]
  }

  /** A text as JavaScript holds it: the UTF-16 code units of its characters, in order. */
  function CodeUnits(s: string): (u: seq<int>)
    ensures |u| >= |s| && (u == [] <==> s == [])
  {
    if s == [] then [] else CodeUnitsOf(s[0]) + CodeUnits(s[1..])
  }

  /** Lexicographic order on code unit sequences: a proper prefix comes first. */
  predicate UnitsLess(a: seq<int>, b: seq<int>)
    decreases |a|
  {
    if b == [] then false
    else if a == [] then true
    else if a[0] != b[0] then a[0] < b[0]
    else UnitsLess(a[1..], b[1..])
  }

  /** `a < b` on strings: the order of their UTF-16 code units, so a character outside the
      Basic Multilingual Plane sorts by its leading surrogate (between U+D800 and U+DBFF),
      before U+E000 to U+FFFF. */
  predicate StrLess(a: string, b: string) {
    UnitsLess(CodeUnits(a), CodeUnits(b))
  }

  /** The empty text is below every other text and above none; and U+1F600, a surrogate
      pair, sorts before U+E000 although its code point is larger. */
  lemma StrLessFacts(b: string)
    ensures StrLess("", b) <==> b != []
    ensures !StrLess(b, "")
    ensures StrLess("\U{1F600}", "\U{E000}") && !StrLess("\U{E000}", "\U{1F600}")
  {
    assert CodeUnits("\U{1F600}") == [0xD83D, 0xDE00] by {
      assert CodeUnits("\U{1F600}") == CodeUnitsOf('\U{1F600}') + CodeUnits([]);
    }
    assert CodeUnits("\U{E000}") == [0xE000] by {
      assert CodeUnits("\U{E000}") == CodeUnitsOf('\U{E000}') + CodeUnits([]);
    }
  }

  /** The primitive `>` reduces a side to: an array or a plain object becomes its text, a date
      its instant, and a primitive stays as it is. */
  function Primitive(v: Value): (p: Value)
    ensures p.Str? <==> v.Str? || v.Arr? || v.Obj?
  {
    if v.Arr? || v.Obj? then Str(TextOf(v)) else v
  }

  /** `a > b`: when both sides reduce to strings they compare as text, otherwise both are
      read as numbers (a NaN side gives false). */
  predicate Greater(a: Value, b: Value) {
    if Primitive(a).Str? && Primitive(b).Str? then StrLess(Primitive(b).s, Primitive(a).s)
    else
      match (ToNumber(a), ToNumber(b))
      case (Some(x), Some(y)) => x > y
      case _ => false
  }

  /** `String(v)`. An array shows its elements joined by commas, with null and undefined
      elements shown empty; a plain object shows "[object Object]". Numbers with a fraction
      and dates are not given a text (the empty string stands in for it). */
  function TextOf(v: Value): string {
    match v
    case Undefined => "undefined"
    case Null => "null"
    case Bool(b) => if b then "true" else "false"
    case Str(s) => s
    case Num(x) => if x == x.Floor as real then IntText(x.Floor) else ""
    case Time(_) => ""
    case Arr(items) =>
      JoinComma(seq(|items|, i requires 0 <= i < |items| =>
        if items[i].Null? || items[i].Undefined? then "" else TextOf(items[i])))
    case Obj(_) => "[object Object]"
  }

  /** `parts.join(",")`. */
  function JoinComma(parts: seq<string>): string {
    if parts == [] then ""
    else if |parts| == 1 then parts[0]
    else parts[0] + "," + JoinComma(parts[1..])
  }

  /** Decimal text of a natural number, most significant digit first. */
  function DecimalText(n: nat): (t: string)
    ensures |t| >= 1
    ensures forall i :: 0 <= i < |t| ==> IsDigit(t[i])
  {
    if n < 10 then [('0' as int + n) as char]
    else DecimalText(n / 10) + [('0' as int + n % 10) as char]
  }

  function IntText(i: int): string {
    if i < 0 then "-" + DecimalText(-i) else DecimalText(i)
  }

  /** `s.slice(0, n)` for n >= 0. */
  function Prefix(s: string, n: nat): (p: string)
    ensures |p| == if |s| < n then |s| else n
    ensures p <= s
  {
    if |s| <= n then s else s[..n]
  }

  /** `s.includes(t)`. */
  predicate Contains(s: string, t: string) {
    exists i :: 0 <= i <= |s| - |t| && OccursAt(s, t, i)
  }

  /** `t` is found in `s` starting at position `i`. */
  predicate OccursAt(s: string, t: string, i: int) {
    0 <= i <= |s| - |t| && s[i..i + |t|] == t
  }

  /** `s.split(sep)[0]` for a one-character separator: the text before the first `sep`. */
  function BeforeFirst(s: string, sep: char): (r: string)
    ensures r <= s
    ensures sep !in r
    ensures |r| < |s| ==> s[|r|] == sep
  {
    if s == [] then []
    else if s[0] == sep then []
    else [s[0]] + BeforeFirst(s[1..], sep)
  }

  /** `Math.round(x)`: halves round up. */
  function Round(x: real): int {
    (x + 0.5).Floor
  }

  function Min(a: real, b: real): real { if a <= b then a else b }
  function Max(a: real, b: real): real { if a >= b then a else b }
  function Abs(x: real): real { if x < 0.0 then -x else x }

  /** `xs.reduce((a, b) => a + b, 0)`, left to right. */
  function Sum(xs: seq<real>): real {
    if xs == [] then 0.0 else Sum(xs[..|xs| - 1]) + xs[|xs| - 1]
  }

  /** An array of strings, as stored. */
  function Texts(xs: seq<string>): Value {
    Arr(seq(|xs|, i requires 0 <= i < |xs| => Str(xs[i])))
  }

  /** A destructuring default (`{ x = d } = body`): `d` only when the value is undefined. */
  function OrDefault(v: Value, d: Value): Value {
    if v.Undefined? then d else v
  }
}
