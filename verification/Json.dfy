/**
 JSON trees, the canonical printer `stableSerialize`, and a reader for JSON texts.
 A number is represented by the decimal text that `JSON.stringify` prints for it: ECMAScript's
 Number::toString gives different finite numbers different texts (0 and -0 count as one number).
 */
module Json {
  import opened Texts
  import opened KeySort

  predicate IsDigit(c: Unit) { 48 <= c <= 57 }

  // Digits, "+", "-", ".", "e" and "E".
  predicate IsNumberUnit(c: Unit) {
    IsDigit(c) || c == 43 || c == 45 || c == 46 || c == 101 || c == 69
  }

  /** What follows the leading digits. */
  function SkipDigits(t: Text): (rest: Text)
    ensures |rest| <= |t| && rest == t[|t| - |rest|..]
    ensures forall i | 0 <= i < |t| - |rest| :: IsDigit(t[i])
  {
    if t != [] && IsDigit(t[0]) then SkipDigits(t[1..]) else t
  }

  /** `frac`, if there is one, behind the integer part; then `exp`, if there is one, and nothing else. */
  predicate IsNumberTail(t: Text): (b: bool)
    ensures b ==> forall i | 0 <= i < |t| :: IsNumberUnit(t[i])
  {
    if t != [] && t[0] == 46 then 1 < |t| && IsDigit(t[1]) && IsExponent(SkipDigits(t[1..])) else IsExponent(t)
  }

  predicate IsExponent(t: Text): (b: bool)
    ensures b ==> forall i | 0 <= i < |t| :: IsNumberUnit(t[i])
  {
    t == []
    || ((t[0] == 101 || t[0] == 69)
        && var digits := if 1 < |t| && (t[1] == 43 || t[1] == 45) then t[2..] else t[1..];
           digits != [] && SkipDigits(digits) == [])
  }

  /** `number` in section 6 of RFC 8259: no leading zeros, and digits on both sides of a point. */
  predicate IsNumberText(t: Text): (b: bool)
    ensures b ==> t != [] && (IsDigit(t[0]) || t[0] == 45) && forall i | 0 <= i < |t| :: IsNumberUnit(t[i])
  {
    var unsigned := if t != [] && t[0] == 45 then t[1..] else t;
    unsigned != [] && IsDigit(unsigned[0])
    && IsNumberTail(if unsigned[0] == 48 then unsigned[1..] else SkipDigits(unsigned))
  }

  type Number = t: Text | IsNumberText(t) witness [48]

  datatype Json =
    | JNull
    | JBool(b: bool)
    | JNumber(n: Number)
    | JString(s: Text)
    | JArray(items: seq<Json>)
    | JObject(members: seq<Member<Json>>)

  /** Object keys are distinct, at every depth; JavaScript objects cannot be otherwise. */
  ghost predicate WellFormed(v: Json) {
    match v
    case JArray(items) => forall i | 0 <= i < |items| :: WellFormed(items[i])
    case JObject(ms) => DistinctKeys(ms) && forall i | 0 <= i < |ms| :: WellFormed(ms[i].value)
    case _ => true
  }

  /** The values an operator can send: what `JSON.parse` returns. */
  type JsonTree = v: Json | WellFormed(v) witness JNull

  /** Equal up to the order of object keys, at every depth. */
  ghost predicate Equivalent(a: Json, b: Json) {
    match (a, b)
    case (JArray(x), JArray(y)) =>
      |x| == |y| && forall i | 0 <= i < |x| :: Equivalent(x[i], y[i])
    case (JObject(x), JObject(y)) =>
      KeySet(x) == KeySet(y) &&
      forall i, j | 0 <= i < |x| && 0 <= j < |y| && x[i].key == y[j].key :: Equivalent(x[i].value, y[j].value)
    case _ => a == b
  }

  /******* Printing *******/

  predicate IsHighSurrogate(c: Unit) { 0xD800 <= c < 0xDC00 }
  predicate IsLowSurrogate(c: Unit) { 0xDC00 <= c < 0xE000 }

  function HexDigit(d: int): Unit
    requires 0 <= d < 16
  {
    if d < 10 then 48 + d else 87 + d
  }

  function UnicodeEscape(c: Unit): Text {
    [92, 117, HexDigit(c / 4096), HexDigit(c / 256 % 16), HexDigit(c / 16 % 16), HexDigit(c % 16)]
  }

  function EscapeUnit(c: Unit): Text {
    if c == 8 then [92, 98]
    else if c == 9 then [92, 116]
    else if c == 10 then [92, 110]
    else if c == 12 then [92, 102]
    else if c == 13 then [92, 114]
    else if c == 34 then [92, 34]
    else if c == 92 then [92, 92]
    else if c < 32 || IsHighSurrogate(c) || IsLowSurrogate(c) then UnicodeEscape(c)
    else [c]
  }

  /** Surrogate pairs are printed as they are; a surrogate on its own is escaped. */
  function Escape(s: Text): Text {
    if s == [] then []
    else if IsHighSurrogate(s[0]) && 1 < |s| && IsLowSurrogate(s[1]) then [s[0], s[1]] + Escape(s[2..])
    else EscapeUnit(s[0]) + Escape(s[1..])
  }

  /** `JSON.stringify` of a string. */
  function Quote(s: Text): Text {
    [34] + Escape(s) + [34]
  }

  const NULL: Text := Ascii("null")
  const TRUE: Text := Ascii("true")
  const FALSE: Text := Ascii("false")

  /**
   A serialiser that prints object members in the order of their keys. `stableSerialize` is the one for the
   order of code units.
   */
  function Print(v: Json, less: Order): Text
    decreases v, 0
  {
    match v
    case JNull => NULL
    case JBool(b) => if b then TRUE else FALSE
    case JNumber(n) => n
    case JString(s) => Quote(s)
    case JArray(items) => [91] + Join(PrintItems(items, less)) + [93]
    case JObject(ms) => [123] + Join(Entries(Sort(PrintMembers(ms, less), less))) + [125]
  }

  function PrintItems(items: seq<Json>, less: Order): (ts: seq<Text>)
    decreases items, 1
  {
    if items == [] then [] else [Print(items[0], less)] + PrintItems(items[1..], less)
  }

  function PrintMembers(ms: seq<Member<Json>>, less: Order): seq<Member<Text>>
    decreases ms, 1
  {
    if ms == [] then [] else [Member(ms[0].key, Print(ms[0].value, less))] + PrintMembers(ms[1..], less)
  }

  function Entries(ms: seq<Member<Text>>): seq<Text> {
    if ms == [] then [] else [Quote(ms[0].key) + [58] + ms[0].value] + Entries(ms[1..])
  }

  /** `texts.join(",")` */
  function Join(ts: seq<Text>): Text {
    if ts == [] then [] else if |ts| == 1 then ts[0] else ts[0] + [44] + Join(ts[1..])
  }

  /******* Reading (RFC 8259, sections 3 to 7, without insignificant whitespace) *******/

  type Read<T> = Option<(T, Text)>

  function HexValue(c: Unit): Option<nat> {
    if IsDigit(c) then Some(c - 48)
    else if 97 <= c <= 102 then Some(c - 87)
    else if 65 <= c <= 70 then Some(c - 55)
    else None
  }

  function ReadHex(t: Text): Option<Unit> {
    if |t| < 4 then None
    else match (HexValue(t[0]), HexValue(t[1]), HexValue(t[2]), HexValue(t[3]))
      case (Some(a), Some(b), Some(c), Some(d)) =>
        var u := a * 4096 + b * 256 + c * 16 + d;
        if u < 0x10000 then Some(u) else None
      case _ => None
  }

  function ReadShortEscape(c: Unit): Option<Unit> {
    if c == 34 || c == 92 || c == 47 then Some(c)
    else if c == 98 then Some(8)
    else if c == 102 then Some(12)
    else if c == 110 then Some(10)
    else if c == 114 then Some(13)
    else if c == 116 then Some(9)
    else None
  }

  function Prepend(c: Unit, r: Read<Text>): Read<Text> {
    if r.Some? then Some(([c] + r.value.0, r.value.1)) else None
  }

  /** Reads the rest of a string whose opening quotation mark has been read. */
  function ReadString(t: Text): (r: Read<Text>)
    ensures r.Some? ==> |r.value.1| < |t|
  {
    if t == [] then None
    else if t[0] == 34 then Some(([], t[1..]))
    else if t[0] == 92 then
      if |t| < 2 then None
      else if t[1] == 117 then
        var hex := ReadHex(t[2..]);
        if hex.None? then None else Prepend(hex.value, ReadString(t[6..]))
      else
        var short := ReadShortEscape(t[1]);
        if short.None? then None else Prepend(short.value, ReadString(t[2..]))
    else if t[0] < 32 then None
    else Prepend(t[0], ReadString(t[1..]))
  }

  function NumberRun(t: Text): (n: nat)
    ensures n <= |t|
    ensures forall i | 0 <= i < n :: IsNumberUnit(t[i])
    ensures n < |t| ==> !IsNumberUnit(t[n])
  {
    if t == [] || !IsNumberUnit(t[0]) then 0 else 1 + NumberRun(t[1..])
  }

  function ReadLiteral(t: Text, literal: Text, v: Json): Read<Json> {
    if literal <= t then Some((v, t[|literal|..])) else None
  }

  function ReadValue(t: Text): (r: Read<Json>)
    ensures r.Some? ==> |r.value.1| < |t|
    decreases |t|, 0
  {
    if t == [] then None
    else if t[0] == 110 then ReadLiteral(t, NULL, JNull)
    else if t[0] == 116 then ReadLiteral(t, TRUE, JBool(true))
    else if t[0] == 102 then ReadLiteral(t, FALSE, JBool(false))
    else if t[0] == 34 then
      var s := ReadString(t[1..]);
      if s.Some? then Some((JString(s.value.0), s.value.1)) else None
    else if t[0] == 91 then
      if 1 < |t| && t[1] == 93 then Some((JArray([]), t[2..]))
      else
        var items := ReadItems(t[1..]);
        if items.Some? then Some((JArray(items.value.0), items.value.1)) else None
    else if t[0] == 123 then
      if 1 < |t| && t[1] == 125 then Some((JObject([]), t[2..]))
      else
        var ms := ReadMembers(t[1..]);
        if ms.Some? then Some((JObject(ms.value.0), ms.value.1)) else None
    else if IsDigit(t[0]) || t[0] == 45 then
      var n := NumberRun(t);
      if IsNumberText(t[..n]) then Some((JNumber(t[..n]), t[n..])) else None
    else None
  }

  /** One or more array elements up to the closing bracket. */
  function ReadItems(t: Text): (r: Read<seq<Json>>)
    ensures r.Some? ==> |r.value.1| < |t|
    decreases |t|, 1
  {
    var first := ReadValue(t);
    if first.None? || first.value.1 == [] then None
    else if first.value.1[0] == 93 then Some(([first.value.0], first.value.1[1..]))
    else if first.value.1[0] == 44 then
      var rest := ReadItems(first.value.1[1..]);
      if rest.Some? then Some(([first.value.0] + rest.value.0, rest.value.1)) else None
    else None
  }

  function ReadMember(t: Text): (r: Read<Member<Json>>)
    ensures r.Some? ==> |r.value.1| < |t|
    decreases |t|, 1
  {
    if t == [] || t[0] != 34 then None
    else
      var key := ReadString(t[1..]);
      if key.None? || key.value.1 == [] || key.value.1[0] != 58 then None
      else
        var value := ReadValue(key.value.1[1..]);
        if value.Some? then Some((Member(key.value.0, value.value.0), value.value.1)) else None
  }

  /** One or more object members up to the closing brace. */
  function ReadMembers(t: Text): (r: Read<seq<Member<Json>>>)
    ensures r.Some? ==> |r.value.1| < |t|
    decreases |t|, 2
  {
    var first := ReadMember(t);
    if first.None? || first.value.1 == [] then None
    else if first.value.1[0] == 125 then Some(([first.value.0], first.value.1[1..]))
    else if first.value.1[0] == 44 then
      var rest := ReadMembers(first.value.1[1..]);
      if rest.Some? then Some(([first.value.0] + rest.value.0, rest.value.1)) else None
    else None
  }

  /******* Canonical trees *******/

  /** The tree a reader builds from the printed text: the same tree with every object's members sorted. */
  function Canonical(v: Json, less: Order): Json
    decreases v, 0
  {
    match v
    case JArray(items) => JArray(CanonicalItems(items, less))
    case JObject(ms) => JObject(Sort(CanonicalMembers(ms, less), less))
    case _ => v
  }

  function CanonicalItems(items: seq<Json>, less: Order): (r: seq<Json>)
    ensures |r| == |items|
    ensures forall i | 0 <= i < |items| :: r[i] == Canonical(items[i], less)
    decreases items, 1
  {
    if items == [] then [] else [Canonical(items[0], less)] + CanonicalItems(items[1..], less)
  }

  function CanonicalMembers(ms: seq<Member<Json>>, less: Order): (r: seq<Member<Json>>)
    ensures |r| == |ms|
    ensures forall i | 0 <= i < |ms| :: r[i] == Member(ms[i].key, Canonical(ms[i].value, less))
    decreases ms, 1
  {
    if ms == [] then []
    else [Member(ms[0].key, Canonical(ms[0].value, less))] + CanonicalMembers(ms[1..], less)
  }
}
