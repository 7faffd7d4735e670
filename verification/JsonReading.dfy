/** A JSON reader recovers the canonical tree from every printed text, whatever follows the text. */
module JsonReading {
  import opened Texts
  import opened KeySort
  import opened Json

  /** What follows a value inside a larger text never looks like more digits. */
  predicate Delimited(rest: Text) {
    rest == [] || !IsNumberUnit(rest[0])
  }

  lemma HexDigitRead(d: int)
    requires 0 <= d < 16
    ensures HexValue(HexDigit(d)) == Some(d)
  {
  }

  lemma HexSplit(c: Unit)
    ensures c == c / 4096 * 4096 + c / 256 % 16 * 256 + c / 16 % 16 * 16 + c % 16
  {
    assert c / 256 / 16 == c / 4096;
    assert c / 16 / 16 == c / 256;
  }

  lemma ReadHexOfEscape(c: Unit, hex: Text)
    requires 4 <= |hex| && hex[..4] == UnicodeEscape(c)[2..]
    ensures ReadHex(hex) == Some(c)
  {
    HexDigitRead(c / 4096);
    HexDigitRead(c / 256 % 16);
    HexDigitRead(c / 16 % 16);
    HexDigitRead(c % 16);
    HexSplit(c);
    var e := UnicodeEscape(c)[2..];
    assert hex[0] == e[0] && hex[1] == e[1] && hex[2] == e[2] && hex[3] == e[3];
  }

  lemma ReadEscapedUnit(c: Unit, rest: Text)
    ensures ReadString(EscapeUnit(c) + rest) == Prepend(c, ReadString(rest))
  {
    var t := EscapeUnit(c) + rest;
    if |EscapeUnit(c)| == 6 {
      var hex := t[2..];
      assert hex[..4] == UnicodeEscape(c)[2..];
      ReadHexOfEscape(c, hex);
      assert t[6..] == rest;
    } else if |EscapeUnit(c)| == 2 {
      assert t[2..] == rest;
    } else {
      assert t[1..] == rest;
    }
  }

  lemma ReadRawUnit(c: Unit, rest: Text)
    requires c != 34 && c != 92 && 32 <= c
    ensures ReadString([c] + rest) == Prepend(c, ReadString(rest))
  {
    assert ([c] + rest)[1..] == rest;
  }

  lemma Associate(a: Text, b: Text, c: Text)
    ensures (a + b) + c == a + (b + c)
  {
  }

  lemma EscapePair(s: Text, close: Text)
    requires 1 < |s| && IsHighSurrogate(s[0]) && IsLowSurrogate(s[1])
    ensures Escape(s) + close == [s[0]] + ([s[1]] + (Escape(s[2..]) + close))
  {
    PairText(s[0], s[1], Escape(s[2..]), close);
  }

  lemma PairText(high: Unit, low: Unit, e: Text, close: Text)
    ensures [high, low] + e + close == [high] + ([low] + (e + close))
  {
  }

  lemma EscapeSingle(s: Text, close: Text)
    requires s != [] && !(IsHighSurrogate(s[0]) && 1 < |s| && IsLowSurrogate(s[1]))
    ensures Escape(s) + close == EscapeUnit(s[0]) + (Escape(s[1..]) + close)
    ensures s == [s[0]] + s[1..]
  {
    var u, e := EscapeUnit(s[0]), Escape(s[1..]);
    assert Escape(s) == u + e;
    Associate(u, e, close);
  }

  lemma {:induction false} ReadEscaped(s: Text, close: Text, rest: Text)
    requires ReadString(close) == Some(([], rest))
    ensures ReadString(Escape(s) + close) == Some((s, rest))
  {
    if s == [] {
      assert Escape(s) + close == close;
    } else if IsHighSurrogate(s[0]) && 1 < |s| && IsLowSurrogate(s[1]) {
      EscapePair(s, close);
      var tail := Escape(s[2..]) + close;
      ReadEscaped(s[2..], close, rest);
      ReadRawUnit(s[1], tail);
      ReadRawUnit(s[0], [s[1]] + tail);
      assert s == [s[0]] + ([s[1]] + s[2..]);
    } else {
      EscapeSingle(s, close);
      ReadEscaped(s[1..], close, rest);
      ReadEscapedUnit(s[0], Escape(s[1..]) + close);
    }
  }

  lemma ReadQuoted(s: Text, rest: Text)
    ensures (Quote(s) + rest)[0] == 34
    ensures ReadString((Quote(s) + rest)[1..]) == Some((s, rest))
  {
    var close := [34] + rest;
    assert close[1..] == rest;
    ReadEscaped(s, close, rest);
    assert (Quote(s) + rest)[1..] == Escape(s) + ([34] + rest);
  }

  lemma {:induction false} NumberRunExact(n: Text, rest: Text)
    requires Delimited(rest)
    requires forall i | 0 <= i < |n| :: IsNumberUnit(n[i])
    ensures NumberRun(n + rest) == |n|
  {
    if n == [] {
      assert n + rest == rest;
    } else {
      NumberRunExact(n[1..], rest);
      assert (n + rest)[1..] == n[1..] + rest;
    }
  }

  /** The first unit of a printed value never closes the bracket before it. */
  lemma PrintStart(v: Json, less: Order)
    ensures Print(v, less) != [] && Print(v, less)[0] != 93 && Print(v, less)[0] != 125
  {
  }

  ghost predicate Readable(v: Json, less: Order) {
    forall rest | Delimited(rest) :: ReadValue(Print(v, less) + rest) == Some((Canonical(v, less), rest))
  }

  /** `ts.join(",")` followed by `close`, written from the left. */
  function JoinThen(ts: seq<Text>, close: Text): Text {
    if ts == [] then close
    else if |ts| == 1 then ts[0] + close
    else ts[0] + ([44] + JoinThen(ts[1..], close))
  }

  lemma {:induction false} JoinAppend(ts: seq<Text>, close: Text)
    ensures Join(ts) + close == JoinThen(ts, close)
  {
    if 1 < |ts| {
      JoinAppend(ts[1..], close);
      assert Join(ts) + close == ts[0] + ([44] + (Join(ts[1..]) + close));
    }
  }

  lemma ReadItemsLast(t: Text, v: Json, rest: Text)
    requires ReadValue(t) == Some((v, [93] + rest))
    ensures ReadItems(t) == Some(([v], rest))
  {
    assert ([93] + rest)[1..] == rest;
  }

  lemma ReadItemsMore(t: Text, v: Json, tail: Text, vs: seq<Json>, rest: Text)
    requires ReadValue(t) == Some((v, [44] + tail))
    requires ReadItems(tail) == Some((vs, rest))
    ensures ReadItems(t) == Some(([v] + vs, rest))
  {
    assert ([44] + tail)[1..] == tail;
  }

  lemma {:induction false} ReadItemsPrinted(items: seq<Json>, rest: Text, less: Order)
    requires items != []
    requires forall i | 0 <= i < |items| :: Readable(items[i], less)
    ensures ReadItems(JoinThen(PrintItems(items, less), [93] + rest)) == Some((CanonicalItems(items, less), rest))
  {
    var close := [93] + rest;
    var t := JoinThen(PrintItems(items, less), close);
    assert Readable(items[0], less);
    assert Delimited(close);
    if |items| == 1 {
      assert PrintItems(items, less) == [Print(items[0], less)];
      assert CanonicalItems(items, less) == [Canonical(items[0], less)];
      ReadItemsLast(t, Canonical(items[0], less), rest);
    } else {
      ReadItemsPrinted(items[1..], rest, less);
      PrintItemsUnfold(items, less);
      var tail := JoinThen(PrintItems(items[1..], less), close);
      assert Delimited([44] + tail);
      ReadItemsMore(t, Canonical(items[0], less), tail, CanonicalItems(items[1..], less), rest);
    }
  }

  lemma PrintItemsUnfold(items: seq<Json>, less: Order)
    requires 1 < |items|
    ensures |PrintItems(items, less)| == |PrintItems(items[1..], less)| + 1 && 1 <= |PrintItems(items[1..], less)|
    ensures PrintItems(items, less)[0] == Print(items[0], less)
    ensures PrintItems(items, less)[1..] == PrintItems(items[1..], less)
  {
  }

  function Entry(m: Member<Json>, less: Order): Text {
    Quote(m.key) + [58] + Print(m.value, less)
  }

  lemma ReadMemberStep(t: Text, key: Text, tail: Text, v: Json, rest: Text)
    requires t != [] && t[0] == 34 && ReadString(t[1..]) == Some((key, [58] + tail))
    requires ReadValue(tail) == Some((v, rest))
    ensures ReadMember(t) == Some((Member(key, v), rest))
  {
    assert ([58] + tail)[1..] == tail;
  }

  lemma ReadMemberPrinted(m: Member<Json>, rest: Text, less: Order)
    requires Readable(m.value, less) && Delimited(rest)
    ensures ReadMember(Entry(m, less) + rest) == Some((Member(m.key, Canonical(m.value, less)), rest))
  {
    var tail := Print(m.value, less) + rest;
    EntryText(m.key, Print(m.value, less), rest);
    ReadQuoted(m.key, [58] + tail);
    ReadMemberStep(Quote(m.key) + ([58] + tail), m.key, tail, Canonical(m.value, less), rest);
  }

  lemma EntryText(key: Text, printed: Text, rest: Text)
    ensures Quote(key) + [58] + printed + rest == Quote(key) + ([58] + (printed + rest))
  {
  }

  lemma ReadMembersLast(t: Text, m: Member<Json>, rest: Text)
    requires ReadMember(t) == Some((m, [125] + rest))
    ensures ReadMembers(t) == Some(([m], rest))
  {
    assert ([125] + rest)[1..] == rest;
  }

  lemma ReadMembersMore(t: Text, m: Member<Json>, tail: Text, ms: seq<Member<Json>>, rest: Text)
    requires ReadMember(t) == Some((m, [44] + tail))
    requires ReadMembers(tail) == Some((ms, rest))
    ensures ReadMembers(t) == Some(([m] + ms, rest))
  {
    assert ([44] + tail)[1..] == tail;
  }

  function EntriesOf(ms: seq<Member<Json>>, less: Order): seq<Text> {
    Entries(PrintMembers(ms, less))
  }

  lemma EntriesUnfold(ms: seq<Member<Json>>, less: Order)
    requires ms != []
    ensures EntriesOf(ms, less) == [Entry(ms[0], less)] + EntriesOf(ms[1..], less)
    ensures EntriesOf(ms, less)[0] == Entry(ms[0], less)
    ensures EntriesOf(ms, less)[1..] == EntriesOf(ms[1..], less)
    ensures |ms| == 1 ==> |EntriesOf(ms, less)| == 1
    ensures 1 < |ms| ==> 1 < |EntriesOf(ms, less)|
  {
    assert PrintMembers(ms, less)[1..] == PrintMembers(ms[1..], less);
    if 1 < |ms| {
      assert PrintMembers(ms[1..], less) != [];
    }
  }

  lemma {:induction false} ReadMembersPrinted(ms: seq<Member<Json>>, rest: Text, less: Order)
    requires ms != []
    requires forall i | 0 <= i < |ms| :: Readable(ms[i].value, less)
    ensures ReadMembers(JoinThen(EntriesOf(ms, less), [125] + rest)) == Some((CanonicalMembers(ms, less), rest))
  {
    var close := [125] + rest;
    var t := JoinThen(EntriesOf(ms, less), close);
    EntriesUnfold(ms, less);
    assert Readable(ms[0].value, less);
    assert Delimited(close);
    var first := Member(ms[0].key, Canonical(ms[0].value, less));
    if |ms| == 1 {
      ReadMemberPrinted(ms[0], close, less);
      assert CanonicalMembers(ms, less) == [first];
      ReadMembersLast(t, first, rest);
    } else {
      ReadMembersPrinted(ms[1..], rest, less);
      var tail := JoinThen(EntriesOf(ms[1..], less), close);
      assert Delimited([44] + tail);
      ReadMemberPrinted(ms[0], [44] + tail, less);
      ReadMembersMore(t, first, tail, CanonicalMembers(ms[1..], less), rest);
    }
  }

  lemma {:induction false} PrintInsert(m: Member<Json>, sorted: seq<Member<Json>>, less: Order)
    ensures PrintMembers(Insert(m, sorted, less), less)
         == Insert(Member(m.key, Print(m.value, less)), PrintMembers(sorted, less), less)
    ensures CanonicalMembers(Insert(m, sorted, less), less)
         == Insert(Member(m.key, Canonical(m.value, less)), CanonicalMembers(sorted, less), less)
  {
    if sorted != [] && less(sorted[0].key, m.key) {
      PrintInsert(m, sorted[1..], less);
      assert Insert(m, sorted, less)[1..] == Insert(m, sorted[1..], less);
      assert PrintMembers(sorted, less)[1..] == PrintMembers(sorted[1..], less);
      assert CanonicalMembers(sorted, less)[1..] == CanonicalMembers(sorted[1..], less);
    } else {
      assert Insert(m, sorted, less)[1..] == sorted;
    }
  }

  /** Sorting the printed entries is printing the sorted members. */
  lemma {:induction false} PrintSorted(ms: seq<Member<Json>>, less: Order)
    ensures PrintMembers(Sort(ms, less), less) == Sort(PrintMembers(ms, less), less)
    ensures CanonicalMembers(Sort(ms, less), less) == Sort(CanonicalMembers(ms, less), less)
  {
    if ms != [] {
      PrintSorted(ms[1..], less);
      PrintInsert(ms[0], Sort(ms[1..], less), less);
      assert PrintMembers(ms, less)[1..] == PrintMembers(ms[1..], less);
      assert CanonicalMembers(ms, less)[1..] == CanonicalMembers(ms[1..], less);
    }
  }

  /** Array texts: the reader goes through the elements and stops behind the bracket. */
  lemma ReadArrayPrinted(items: seq<Json>, rest: Text, less: Order)
    requires forall i | 0 <= i < |items| :: Readable(items[i], less)
    ensures ReadValue(Print(JArray(items), less) + rest) == Some((Canonical(JArray(items), less), rest))
  {
    var t := Print(JArray(items), less) + rest;
    if items == [] {
      assert t[2..] == rest;
    } else {
      var body := JoinThen(PrintItems(items, less), [93] + rest);
      JoinAppend(PrintItems(items, less), [93] + rest);
      assert t[1..] == body;
      PrintStart(items[0], less);
      assert t[1] == body[0] == Print(items[0], less)[0];
      ReadItemsPrinted(items, rest, less);
    }
  }

  lemma ObjectText(ms: seq<Member<Json>>, rest: Text, less: Order)
    ensures Print(JObject(ms), less) + rest == [123] + JoinThen(EntriesOf(Sort(ms, less), less), [125] + rest)
  {
    PrintSorted(ms, less);
    var ts := EntriesOf(Sort(ms, less), less);
    BraceText(Join(ts), rest);
    JoinAppend(ts, [125] + rest);
  }

  lemma BraceText(body: Text, rest: Text)
    ensures [123] + body + [125] + rest == [123] + (body + ([125] + rest))
  {
  }

  lemma ReadObjectStep(body: Text, ms: seq<Member<Json>>, rest: Text)
    requires body != [] && body[0] == 34 && ReadMembers(body) == Some((ms, rest))
    ensures ReadValue([123] + body) == Some((JObject(ms), rest))
  {
    assert ([123] + body)[1..] == body;
  }

  lemma ReadEntries(ms: seq<Member<Json>>, rest: Text, less: Order)
    requires forall i | 0 <= i < |ms| :: Readable(ms[i].value, less)
    ensures ReadValue([123] + JoinThen(EntriesOf(ms, less), [125] + rest))
         == Some((JObject(CanonicalMembers(ms, less)), rest))
  {
    hide Readable;
    if ms == [] {
      assert ([123] + ([125] + rest))[2..] == rest;
    } else {
      EntriesUnfold(ms, less);
      ReadMembersPrinted(ms, rest, less);
      JoinStart(EntriesOf(ms, less), [125] + rest);
      hide ReadValue, EntriesOf, ReadMembers, CanonicalMembers, JoinThen;
      ReadObjectStep(JoinThen(EntriesOf(ms, less), [125] + rest), CanonicalMembers(ms, less), rest);
    }
  }

  lemma JoinStart(ts: seq<Text>, close: Text)
    requires ts != [] && ts[0] != []
    ensures JoinThen(ts, close) != [] && JoinThen(ts, close)[0] == ts[0][0]
  {
  }

  lemma SortReadable(ms: seq<Member<Json>>, less: Order)
    requires forall i | 0 <= i < |ms| :: Readable(ms[i].value, less)
    ensures forall i | 0 <= i < |Sort(ms, less)| :: Readable(Sort(ms, less)[i].value, less)
  {
    SortElements(ms, less);
    forall i | 0 <= i < |Sort(ms, less)| ensures Readable(Sort(ms, less)[i].value, less) {
      assert Sort(ms, less)[i] in multiset(ms);
    }
  }

  /** Object texts: the entries are read back in the order of their sorted keys. */
  lemma ReadObjectPrinted(ms: seq<Member<Json>>, rest: Text, less: Order)
    requires forall i | 0 <= i < |ms| :: Readable(ms[i].value, less)
    ensures ReadValue(Print(JObject(ms), less) + rest) == Some((JObject(Sort(CanonicalMembers(ms, less), less)), rest))
  {
    PrintSorted(ms, less);
    ObjectText(ms, rest, less);
    SortReadable(ms, less);
    ReadEntries(Sort(ms, less), rest, less);
  }

  lemma ReadNumberPrinted(n: Number, rest: Text)
    requires Delimited(rest)
    ensures ReadValue(n + rest) == Some((JNumber(n), rest))
  {
    NumberRunExact(n, rest);
    var t := n + rest;
    assert t[0] == n[0];
    assert t[..|n|] == n && t[|n|..] == rest;
  }

  lemma ReadLiteralPrinted(literal: Text, v: Json, rest: Text)
    ensures ReadLiteral(literal + rest, literal, v) == Some((v, rest))
  {
    assert (literal + rest)[|literal|..] == rest;
  }

  lemma ReadScalarPrinted(v: Json, rest: Text, less: Order)
    requires !v.JArray? && !v.JObject? && Delimited(rest)
    ensures ReadValue(Print(v, less) + rest) == Some((v, rest))
  {
    match v
    case JNumber(n) => ReadNumberPrinted(n, rest);
    case JString(s) => ReadQuoted(s, rest);
    case _ => ReadLiteralPrinted(Print(v, less), v, rest);
  }

  /** The reader stops exactly where the printed value ends and returns its canonical tree. */
  lemma {:induction false} ReadPrinted(v: Json, less: Order)
    ensures Readable(v, less)
  {
    match v
    case JArray(items) =>
      forall i | 0 <= i < |items| ensures Readable(items[i], less) {
        ReadPrinted(items[i], less);
      }
      forall rest | Delimited(rest) ensures ReadValue(Print(v, less) + rest) == Some((Canonical(v, less), rest)) {
        ReadArrayPrinted(items, rest, less);
      }
    case JObject(ms) =>
      forall i | 0 <= i < |ms| ensures Readable(ms[i].value, less) {
        ReadPrinted(ms[i].value, less);
      }
      forall rest | Delimited(rest) ensures ReadValue(Print(v, less) + rest) == Some((Canonical(v, less), rest)) {
        ReadObjectPrinted(ms, rest, less);
      }
    case _ =>
      forall rest | Delimited(rest) ensures ReadValue(Print(v, less) + rest) == Some((Canonical(v, less), rest)) {
        ReadScalarPrinted(v, rest, less);
      }
  }
}
