/** Quoting in generated SQL: dollar quotes and string literals, with the readers that undo them. */
module SqlText {
  import opened Texts

  const DOLLAR: Unit := 36
  const APOSTROPHE: Unit := 39
  const SEMICOLON: Unit := 59

  /******* Dollar quotes *******/

  predicate OccursAt(pattern: Text, text: Text, i: int) {
    0 <= i && i + |pattern| <= |text| && text[i..i + |pattern|] == pattern
  }

  /** `text.includes(pattern)` */
  predicate Includes(text: Text, pattern: Text) {
    exists i | 0 <= i <= |text| :: OccursAt(pattern, text, i)
  }

  /** The first occurrence at or after `from`. */
  function FirstAt(pattern: Text, text: Text, from: nat): (i: Option<nat>)
    ensures i.Some? ==> from <= i.value && OccursAt(pattern, text, i.value)
    ensures i.Some? ==> forall j | from <= j < i.value :: !OccursAt(pattern, text, j)
    ensures i.None? ==> forall j | from <= j :: !OccursAt(pattern, text, j)
    decreases |text| - from
  {
    if OccursAt(pattern, text, from) then Some(from)
    else if |text| <= from then None
    else FirstAt(pattern, text, from + 1)
  }

  /**
   Section 4.1.2.4 of the PostgreSQL manual: a dollar sign, a tag without dollar signs, another dollar sign;
   then the content, up to the first repetition of that delimiter.
   */
  function ReadDollarQuoted(text: Text): Option<(Text, Text)> {
    if text == [] || text[0] != DOLLAR then None
    else
      var close := FirstAt([DOLLAR], text, 1);
      if close.None? then None
      else
        var delimiter := text[..close.value + 1];
        var end := FirstAt(delimiter, text, |delimiter|);
        if end.None? then None else Some((text[|delimiter|..end.value], text[end.value + |delimiter|..]))
  }

  const TAG: Text := Ascii("$roboops_migration")

  function Delimiter(n: nat): Text {
    if n == 0 then TAG + [DOLLAR] else TAG + Ascii("_") + Decimal(n) + [DOLLAR]
  }

  function Pow10(n: nat): nat {
    if n == 0 then 1 else 10 * Pow10(n - 1)
  }

  lemma {:induction false} Pow10Grows(m: nat, n: nat)
    requires m <= n
    ensures 1 <= Pow10(m) <= Pow10(n)
    decreases n
  {
    if m < n {
      Pow10Grows(m, n - 1);
    } else if 0 < n {
      Pow10Grows(m - 1, n - 1);
    }
  }

  lemma {:induction false} DecimalDigits(n: nat)
    ensures 1 <= |Decimal(n)| && n < Pow10(|Decimal(n)|)
    ensures forall i | 0 <= i < |Decimal(n)| :: 48 <= Decimal(n)[i] < 58
    decreases n
  {
    if 10 <= n {
      DecimalDigits(n / 10);
    } else {
      assert Pow10(1) == 10 * Pow10(0);
    }
  }

  /** A delimiter that fits into the text has a number below a power of ten given by the text's length. */
  lemma DelimiterBound(value: Text, n: nat)
    requires Includes(value, Delimiter(n))
    ensures n < Pow10(|value|)
  {
    DecimalDigits(n);
    Pow10Grows(|Decimal(n)|, |Delimiter(n)|);
    Pow10Grows(|Delimiter(n)|, |value|);
  }

  /** Finds the first delimiter that the text does not contain. */
  method SqlDollarQuote(value: Text) returns (quoted: Text, tagIndex: nat)
    ensures quoted == Delimiter(tagIndex) + value + Delimiter(tagIndex)
    ensures !Includes(value, Delimiter(tagIndex))
    ensures forall k: nat | k < tagIndex :: Includes(value, Delimiter(k))
  {
    tagIndex := 0;
    var delimiter := TAG + [DOLLAR];
    while Includes(value, delimiter)
      invariant delimiter == Delimiter(tagIndex)
      invariant forall k: nat | k < tagIndex :: Includes(value, Delimiter(k))
      decreases Pow10(|value|) - tagIndex
    {
      DelimiterBound(value, tagIndex);
      tagIndex := tagIndex + 1;
      delimiter := TAG + Ascii("_") + Decimal(tagIndex) + [DOLLAR];
    }
    quoted := delimiter + value + delimiter;
  }

  /** A delimiter begins and ends with a dollar sign and has none in between. */
  lemma DelimiterShape(n: nat)
    ensures var d := Delimiter(n);
            && 2 <= |d| && d[0] == DOLLAR && d[|d| - 1] == DOLLAR
            && forall i | 0 < i < |d| - 1 :: d[i] != DOLLAR
  {
    DecimalDigits(n);
    assert forall i | 0 < i < |TAG| :: TAG[i] != DOLLAR;
  }

  predicate EndsWith(text: Text, suffix: Text) {
    |suffix| <= |text| && text[|text| - |suffix|..] == suffix
  }

  /** The only way to close too early: the value ends with the delimiter but for its last dollar sign. */
  lemma EarlyClose(value: Text, d: Text, i: nat, rest: Text)
    requires 2 <= |d| && d[0] == DOLLAR && d[|d| - 1] == DOLLAR && forall k | 0 < k < |d| - 1 :: d[k] != DOLLAR
    requires !Includes(value, d) && i < |value|
    ensures OccursAt(d, value + d + rest, i) <==> i + |d| == |value| + 1 && EndsWith(value, d[..|d| - 1])
  {
    var text := value + d + rest;
    if OccursAt(d, text, i) {
      if i + |d| <= |value| {
        assert text[i..i + |d|] == value[i..i + |d|];
        assert OccursAt(d, value, i);
      } else {
        var k := |value| - i;
        assert text[|value|] == d[0] == DOLLAR && d[k] == text[i + k];
        assert k == |d| - 1;
        assert value[i..] == d[..|d| - 1];
      }
    }
    if i + |d| == |value| + 1 && EndsWith(value, d[..|d| - 1]) {
      assert text[i..i + |d|] == value[i..] + [d[0]];
      assert d == d[..|d| - 1] + [d[|d| - 1]];
    }
  }

  lemma FirstIs(pattern: Text, text: Text, from: nat, stop: nat)
    requires from <= stop && OccursAt(pattern, text, stop)
    requires forall j | from <= j < stop :: !OccursAt(pattern, text, j)
    ensures FirstAt(pattern, text, from) == Some(stop)
  {
    assert FirstAt(pattern, text, from).Some?;
  }

  lemma OpeningRead(d: Text, tail: Text)
    requires 2 <= |d| && d[0] == DOLLAR && d[|d| - 1] == DOLLAR && forall k | 0 < k < |d| - 1 :: d[k] != DOLLAR
    ensures FirstAt([DOLLAR], d + tail, 1) == Some(|d| - 1)
  {
    var text := d + tail;
    assert text[|d| - 1..|d|] == [DOLLAR];
    forall j | 1 <= j < |d| - 1 ensures !OccursAt([DOLLAR], text, j) {
      assert text[j..j + 1][0] == d[j];
    }
    FirstIs([DOLLAR], text, 1, |d| - 1);
  }

  lemma Shifted(d: Text, tail: Text, i: nat)
    ensures OccursAt(d, d + tail, |d| + i) <==> OccursAt(d, tail, i)
  {
    if i + |d| <= |tail| {
      assert (d + tail)[|d| + i..|d| + i + |d|] == tail[i..i + |d|];
    }
  }

  /** Where the reader stops: at the appended delimiter, unless the value ends with all of it but the last sign. */
  lemma ClosingRead(value: Text, d: Text, rest: Text)
    requires 2 <= |d| && d[0] == DOLLAR && d[|d| - 1] == DOLLAR && forall k | 0 < k < |d| - 1 :: d[k] != DOLLAR
    requires !Includes(value, d)
    ensures FirstAt(d, d + (value + d + rest), |d|)
         == Some(|d| + if EndsWith(value, d[..|d| - 1]) then |value| + 1 - |d| else |value|)
  {
    var tail := value + d + rest;
    var stop := if EndsWith(value, d[..|d| - 1]) then |value| + 1 - |d| else |value|;
    forall j | |d| <= j < |d| + stop ensures !OccursAt(d, d + tail, j) {
      Shifted(d, tail, j - |d|);
      EarlyClose(value, d, j - |d|, rest);
    }
    Shifted(d, tail, stop);
    if EndsWith(value, d[..|d| - 1]) {
      EarlyClose(value, d, stop, rest);
    } else {
      assert tail[|value|..|value| + |d|] == d;
    }
    hide OccursAt, Includes, EndsWith;
    FirstIs(d, d + tail, |d|, |d| + stop);
  }

  /**
   A dollar-quoted value reads back as itself if and only if it does not end with the chosen delimiter without
   its last dollar sign.
   */
  lemma DollarQuoteRoundTrip(value: Text, n: nat, rest: Text)
    requires !Includes(value, Delimiter(n))
    ensures var d := Delimiter(n);
            ReadDollarQuoted(d + value + d + rest) == Some((value, rest)) <==> !EndsWith(value, d[..|d| - 1])
  {
    var d := Delimiter(n);
    DelimiterShape(n);
    hide Delimiter;
    hide FirstAt, Includes, OccursAt, ReadDollarQuoted;
    var tail := value + d + rest;
    Sliced(value, d, rest);
    OpeningRead(d, tail);
    ClosingRead(value, d, rest);
    var stop := if EndsWith(value, d[..|d| - 1]) then |value| + 1 - |d| else |value|;
    ReadsUpTo(d, tail, stop);
    assert stop != |value| ==> |tail[..stop]| < |value|;
  }

  lemma Sliced(value: Text, d: Text, rest: Text)
    ensures d + value + d + rest == d + (value + d + rest)
    ensures (value + d + rest)[..|value|] == value && (value + d + rest)[|value| + |d|..] == rest
  {
  }

  lemma ReadsUpTo(d: Text, tail: Text, stop: nat)
    requires 2 <= |d| && d[0] == DOLLAR && stop + |d| <= |tail|
    requires FirstAt([DOLLAR], d + tail, 1) == Some(|d| - 1)
    requires FirstAt(d, d + tail, |d|) == Some(|d| + stop)
    ensures ReadDollarQuoted(d + tail) == Some((tail[..stop], tail[stop + |d|..]))
  {
    hide FirstAt, OccursAt;
    Behind(d, tail, stop);
    var text := d + tail;
    assert text != [] && text[0] == DOLLAR;
  }

  lemma Behind(d: Text, tail: Text, stop: nat)
    requires stop + |d| <= |tail|
    ensures (d + tail)[..|d|] == d
    ensures (d + tail)[|d|..|d| + stop] == tail[..stop]
    ensures (d + tail)[|d| + stop + |d|..] == tail[stop + |d|..]
  {
  }

  /** For instance the first delimiter without its last dollar sign does not survive quoting. */
  lemma QuotingCanFail(rest: Text)
    ensures !Includes(TAG, Delimiter(0))
    ensures ReadDollarQuoted(Delimiter(0) + TAG + Delimiter(0) + rest) != Some((TAG, rest))
  {
    assert Delimiter(0)[..|Delimiter(0)| - 1] == TAG;
    DollarQuoteRoundTrip(TAG, 0, rest);
  }

  /** A text that ends with a semicolon always survives. */
  lemma StatementRoundTrip(value: Text, n: nat, rest: Text)
    requires !Includes(value, Delimiter(n)) && EndsWith(value, [SEMICOLON])
    ensures ReadDollarQuoted(Delimiter(n) + value + Delimiter(n) + rest) == Some((value, rest))
  {
    var d := Delimiter(n);
    DollarQuoteRoundTrip(value, n, rest);
    DecimalDigits(n);
    LastUnit(value, [SEMICOLON]);
    LastUnit(value, d[..|d| - 1]);
  }

  lemma LastUnit(text: Text, suffix: Text)
    ensures EndsWith(text, suffix) && suffix != [] ==> text != [] && text[|text| - 1] == suffix[|suffix| - 1]
  {
  }

  /******* String literals *******/

  function Doubled(value: Text): Text {
    if value == [] then []
    else (if value[0] == APOSTROPHE then [APOSTROPHE, APOSTROPHE] else [value[0]]) + Doubled(value[1..])
  }

  function SqlStringLiteral(value: Text): Text {
    [APOSTROPHE] + Doubled(value) + [APOSTROPHE]
  }

  /** Section 4.1.2.1 of the PostgreSQL manual: two adjacent apostrophes stand for one. */
  function ReadLiteralBody(text: Text): Option<(Text, Text)> {
    if text == [] then None
    else if text[0] != APOSTROPHE then
      match ReadLiteralBody(text[1..])
      case Some((value, rest)) => Some(([text[0]] + value, rest))
      case None => None
    else if 1 < |text| && text[1] == APOSTROPHE then
      match ReadLiteralBody(text[2..])
      case Some((value, rest)) => Some(([APOSTROPHE] + value, rest))
      case None => None
    else Some(([], text[1..]))
  }

  function ReadLiteral(text: Text): Option<(Text, Text)> {
    if text == [] || text[0] != APOSTROPHE then None else ReadLiteralBody(text[1..])
  }

  lemma {:induction false} LiteralBodyRoundTrip(value: Text, rest: Text)
    requires rest == [] || rest[0] != APOSTROPHE
    ensures ReadLiteralBody(Doubled(value) + [APOSTROPHE] + rest) == Some((value, rest))
  {
    var text := Doubled(value) + [APOSTROPHE] + rest;
    if value == [] {
      assert text == [APOSTROPHE] + rest;
      assert text[1..] == rest;
    } else {
      LiteralBodyRoundTrip(value[1..], rest);
      var more := Doubled(value[1..]) + [APOSTROPHE] + rest;
      assert value == [value[0]] + value[1..];
      if value[0] == APOSTROPHE {
        assert text == [APOSTROPHE, APOSTROPHE] + more;
        assert text[2..] == more;
      } else {
        assert text == [value[0]] + more;
        assert text[1..] == more;
      }
    }
  }

  /** Any text can be written as a literal and read back, whatever quotes it contains. */
  lemma LiteralRoundTrip(value: Text, rest: Text)
    requires rest == [] || rest[0] != APOSTROPHE
    ensures ReadLiteral(SqlStringLiteral(value) + rest) == Some((value, rest))
  {
    LiteralBodyRoundTrip(value, rest);
    assert (SqlStringLiteral(value) + rest)[1..] == Doubled(value) + [APOSTROPHE] + rest;
  }

  /******* Statements with literals in them *******/

  /** SQL text as its reader sees it: fixed text, with string literals that stand for values. */
  datatype Script =
    | End
    | Plain(text: Text, more: Script)
    | Literal(value: Text, more: Script)

  /** What is behind the script, when the text begins with it. */
  function ReadScript(text: Text, script: Script): Option<Text>
    decreases script
  {
    match script
    case End => Some(text)
    case Plain(fixed, more) =>
      if |fixed| <= |text| && text[..|fixed|] == fixed then ReadScript(text[|fixed|..], more) else None
    case Literal(value, more) =>
      match ReadLiteral(text)
      case Some((read, rest)) => if read == value then ReadScript(rest, more) else None
      case None => None
  }

  function Rendered(script: Script): Text {
    match script
    case End => []
    case Plain(fixed, more) => fixed + Rendered(more)
    case Literal(value, more) => SqlStringLiteral(value) + Rendered(more)
  }

  /** No literal runs into an apostrophe behind it. */
  predicate Separated(script: Script, rest: Text) {
    match script
    case End => true
    case Plain(_, more) => Separated(more, rest)
    case Literal(_, more) => Unquoted(Rendered(more) + rest) && Separated(more, rest)
  }

  predicate Unquoted(text: Text) {
    text == [] || text[0] != APOSTROPHE
  }

  lemma {:induction false} ReadsRendered(script: Script, rest: Text)
    requires Separated(script, rest)
    ensures ReadScript(Rendered(script) + rest, script) == Some(rest)
    decreases script
  {
    hide SqlStringLiteral, ReadLiteral;
    match script
    case End => assert Rendered(script) + rest == rest;
    case Plain(fixed, more) =>
      ReadsRendered(more, rest);
      var text := Rendered(script) + rest;
      assert text == fixed + (Rendered(more) + rest);
      assert text[..|fixed|] == fixed && text[|fixed|..] == Rendered(more) + rest;
    case Literal(value, more) =>
      ReadsRendered(more, rest);
      LiteralRoundTrip(value, Rendered(more) + rest);
      assert Rendered(script) + rest == SqlStringLiteral(value) + (Rendered(more) + rest);
  }

  /** A script with fixed text, or with a literal and then fixed text, in front of it. */
  lemma PlainRenders(fixed: Text, more: Script, rest: Text)
    ensures Rendered(Plain(fixed, more)) == fixed + Rendered(more)
    ensures Separated(more, rest) ==> Separated(Plain(fixed, more), rest)
  {
  }

  lemma LiteralRenders(value: Text, fixed: Text, more: Script, rest: Text)
    requires fixed != [] && fixed[0] != APOSTROPHE
    ensures Rendered(Literal(value, Plain(fixed, more))) == SqlStringLiteral(value) + (fixed + Rendered(more))
    ensures Separated(more, rest) ==> Separated(Literal(value, Plain(fixed, more)), rest)
  {
    hide SqlStringLiteral;
    var behind := Plain(fixed, more);
    assert Rendered(behind) == fixed + Rendered(more);
    assert (Rendered(behind) + rest)[0] == fixed[0];
    PlainRenders(fixed, more, rest);
  }
}
