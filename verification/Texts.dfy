/** JavaScript strings, their default sort order, and the ids and options the other modules share. */
module Texts {
  /** One UTF-16 code unit. */
  type Unit = c: int | 0 <= c < 0x10000

  /** A JavaScript string: any sequence of UTF-16 code units, paired surrogates or not. */
  type Text = seq<Unit>

  /** The wire validators refuse or drop empty identifiers, so an id that is present is truthy. */
  type Id = t: Text | 0 < |t| witness [97]

  datatype Option<+T> = None | Some(value: T) {
    /** `this ?? fallback` */
    function Or(fallback: T): T {
      if Some? then value else fallback
    }

    /** The optional field `this` when present, otherwise the optional field `fallback`. */
    function OrElse(fallback: Option<T>): Option<T> {
      if Some? then this else fallback
    }
  }

  predicate IsAscii(s: string) {
    forall i | 0 <= i < |s| :: s[i] < 128 as char
  }

  function Ascii(s: string): (t: Text)
    requires IsAscii(s)
    ensures |t| == |s|
    ensures forall i | 0 <= i < |s| :: t[i] == s[i] as int
  {
    seq(|s|, i requires 0 <= i < |s| => s[i] as int)
  }

  /** `String(n)` of a non-negative integer. */
  function Decimal(n: nat): Text {
    (if n < 10 then [] else Decimal(n / 10)) + [48 + n % 10]
  }

  /** The order `Array.prototype.sort` uses on strings: by code unit, a proper prefix first. */
  predicate Less(a: Text, b: Text) {
    if b == [] then false
    else if a == [] then true
    else a[0] < b[0] || (a[0] == b[0] && Less(a[1..], b[1..]))
  }

  lemma {:induction false} LessTotal(a: Text, b: Text)
    ensures Less(a, b) || a == b || Less(b, a)
    ensures !(Less(a, b) && Less(b, a))
    ensures !Less(a, a)
  {
    if a != [] {
      LessTotal(a[1..], a[1..]);
    }
    if a != [] && b != [] && a[0] == b[0] {
      LessTotal(a[1..], b[1..]);
      if a[1..] == b[1..] {
        assert a == [a[0]] + a[1..];
        assert b == [b[0]] + b[1..];
      }
    }
  }

  lemma {:induction false} LessTransitive(a: Text, b: Text, c: Text)
    requires Less(a, b) && Less(b, c)
    ensures Less(a, c)
  {
    if a != [] && a[0] == b[0] && b[0] == c[0] {
      LessTransitive(a[1..], b[1..], c[1..]);
    }
  }

  /** At this place the texts differ for the first time, and the first one is smaller there or ends. */
  predicate SmallerAt(a: Text, b: Text, k: nat) {
    && k <= |a| && k < |b| && a[..k] == b[..k]
    && (k == |a| || a[k] < b[k])
  }

  lemma {:induction false} LessExactly(a: Text, b: Text)
    ensures Less(a, b) <==> exists k: nat :: SmallerAt(a, b, k)
  {
    if a == [] || b == [] || a[0] != b[0] {
      if Less(a, b) {
        assert SmallerAt(a, b, 0);
      } else {
        forall k: nat ensures !SmallerAt(a, b, k) {
          assert k <= |a| && k < |b| && 0 < k ==> a[..k][0] == a[0] && b[..k][0] == b[0];
        }
      }
    } else {
      LessExactly(a[1..], b[1..]);
      forall k: nat | SmallerAt(a[1..], b[1..], k) ensures SmallerAt(a, b, k + 1) {
        assert a[..k + 1] == [a[0]] + a[1..][..k] && b[..k + 1] == [b[0]] + b[1..][..k];
      }
      forall k: nat | SmallerAt(a, b, k) && 0 < k ensures SmallerAt(a[1..], b[1..], k - 1) {
        assert a[1..][..k - 1] == a[..k][1..] && b[1..][..k - 1] == b[..k][1..];
      }
      assert !SmallerAt(a, b, 0);
    }
  }
}
