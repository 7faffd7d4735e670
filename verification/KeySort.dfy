/** Sorting the members of an object by key, under any strict order of the keys. */
module KeySort {
  import opened Texts

  datatype Member<+V> = Member(key: Text, value: V)

  type Order = (Text, Text) -> bool

  ghost predicate StrictOrder(less: Order) {
    && (forall a, b :: less(a, b) || a == b || less(b, a))
    && (forall a, b :: less(a, b) ==> !less(b, a))
    && (forall a, b, c :: less(a, b) && less(b, c) ==> less(a, c))
  }

  lemma OrderTotal(less: Order, a: Text, b: Text)
    requires StrictOrder(less)
    ensures less(a, b) || a == b || less(b, a)
    ensures !(less(a, b) && less(b, a))
    ensures !less(a, a)
  {
  }

  lemma OrderTransitive(less: Order, a: Text, b: Text, c: Text)
    requires StrictOrder(less) && less(a, b) && less(b, c)
    ensures less(a, c)
  {
  }

  /** The order `Object.keys(record).sort()` uses is one. */
  lemma CodeUnitOrder()
    ensures StrictOrder(Less)
  {
    forall a, b ensures (Less(a, b) || a == b || Less(b, a)) && (Less(a, b) ==> !Less(b, a)) {
      LessTotal(a, b);
    }
    forall a, b, c | Less(a, b) && Less(b, c) ensures Less(a, c) {
      LessTransitive(a, b, c);
    }
    hide Less;
  }

  predicate DistinctKeys<V>(ms: seq<Member<V>>) {
    forall i, j | 0 <= i < j < |ms| :: ms[i].key != ms[j].key
  }

  predicate StrictlySorted<V>(ms: seq<Member<V>>, less: Order) {
    forall i, j | 0 <= i < j < |ms| :: less(ms[i].key, ms[j].key)
  }

  ghost function Elements<V>(ms: seq<Member<V>>): iset<Member<V>> {
    iset m | m in ms
  }

  ghost function KeySet<V>(ms: seq<Member<V>>): iset<Text> {
    iset m | m in ms :: m.key
  }

  function Insert<V>(m: Member<V>, sorted: seq<Member<V>>, less: Order): seq<Member<V>> {
    if sorted == [] then [m]
    else if less(sorted[0].key, m.key) then [sorted[0]] + Insert(m, sorted[1..], less)
    else [m] + sorted
  }

  function Sort<V>(ms: seq<Member<V>>, less: Order): seq<Member<V>> {
    if ms == [] then [] else Insert(ms[0], Sort(ms[1..], less), less)
  }

  lemma {:induction false} InsertElements<V>(m: Member<V>, sorted: seq<Member<V>>, less: Order)
    ensures multiset(Insert(m, sorted, less)) == multiset{m} + multiset(sorted)
  {
    if sorted != [] {
      InsertElements(m, sorted[1..], less);
      assert sorted == [sorted[0]] + sorted[1..];
    }
  }

  lemma {:induction false} SortElements<V>(ms: seq<Member<V>>, less: Order)
    ensures multiset(Sort(ms, less)) == multiset(ms)
    ensures |Sort(ms, less)| == |ms|
  {
    if ms != [] {
      SortElements(ms[1..], less);
      InsertElements(ms[0], Sort(ms[1..], less), less);
      assert ms == [ms[0]] + ms[1..];
      assert |multiset(Sort(ms, less))| == |multiset(ms)|;
    }
  }

  lemma {:induction false} InsertSorted<V>(m: Member<V>, sorted: seq<Member<V>>, less: Order)
    requires StrictOrder(less) && StrictlySorted(sorted, less)
    requires forall x | x in sorted :: x.key != m.key
    ensures StrictlySorted(Insert(m, sorted, less), less)
  {
    if sorted != [] {
      var head, rest := sorted[0], sorted[1..];
      OrderTotal(less, head.key, m.key);
      if less(head.key, m.key) {
        InsertSorted(m, rest, less);
        var r := Insert(m, rest, less);
        InsertElements(m, rest, less);
        forall j | 0 <= j < |r| ensures less(head.key, r[j].key) {
          assert r[j] in multiset(r);
          if r[j] != m {
            assert r[j] in multiset(rest);
            var i :| 0 <= i < |rest| && rest[i] == r[j];
            assert sorted[i + 1] == r[j];
          }
        }
      } else {
        forall j | 0 <= j < |sorted| ensures less(m.key, sorted[j].key) {
          if 0 < j {
            OrderTransitive(less, m.key, head.key, sorted[j].key);
          } else {
            assert head in sorted;
          }
        }
      }
    }
  }

  lemma {:induction false} SortSorted<V>(ms: seq<Member<V>>, less: Order)
    requires StrictOrder(less) && DistinctKeys(ms)
    ensures StrictlySorted(Sort(ms, less), less)
  {
    if ms != [] {
      SortSorted(ms[1..], less);
      SortElements(ms[1..], less);
      forall x | x in Sort(ms[1..], less) ensures x.key != ms[0].key {
        assert x in multiset(ms[1..]);
        var i :| 0 <= i < |ms| - 1 && ms[1..][i] == x;
        assert ms[i + 1] == x;
      }
      InsertSorted(ms[0], Sort(ms[1..], less), less);
    }
  }

  /** A strictly sorted sequence is determined by its elements. */
  lemma {:induction false} StrictlySortedUnique<V>(a: seq<Member<V>>, b: seq<Member<V>>, less: Order)
    requires StrictOrder(less) && StrictlySorted(a, less) && StrictlySorted(b, less)
    requires forall x :: x in a <==> x in b
    ensures a == b
  {
    assert b != [] ==> b[0] in b;
    if a != [] {
      assert a[0] in b;
      assert b[0] in a;
      var i :| 0 <= i < |b| && b[i] == a[0];
      var j :| 0 <= j < |a| && a[j] == b[0];
      OrderTotal(less, a[0].key, b[0].key);
      OrderTotal(less, a[0].key, a[0].key);
      assert a[0] == b[0];
      forall x ensures x in a[1..] <==> x in b[1..] {
        if x in a[1..] {
          SortedTail(a, x, less);
          assert x in b;
        }
        if x in b[1..] {
          SortedTail(b, x, less);
          assert x in a;
        }
      }
      StrictlySortedUnique(a[1..], b[1..], less);
      assert a == [a[0]] + a[1..];
      assert b == [b[0]] + b[1..];
    }
  }

  lemma SortedTail<V>(a: seq<Member<V>>, x: Member<V>, less: Order)
    requires StrictOrder(less) && a != [] && StrictlySorted(a, less) && x in a[1..]
    ensures x != a[0]
  {
    var i :| 0 <= i < |a| - 1 && a[1..][i] == x;
    assert less(a[0].key, a[i + 1].key);
    OrderTotal(less, x.key, x.key);
  }

  /** Sorting forgets the order of the members and nothing else. */
  lemma SortExact<V>(a: seq<Member<V>>, b: seq<Member<V>>, less: Order)
    requires StrictOrder(less) && DistinctKeys(a) && DistinctKeys(b)
    ensures Sort(a, less) == Sort(b, less) <==> Elements(a) == Elements(b)
  {
    SortElements(a, less);
    SortElements(b, less);
    if Elements(a) == Elements(b) {
      forall x ensures x in Sort(a, less) <==> x in Sort(b, less) {
        assert x in multiset(a) <==> x in Elements(a);
        assert x in multiset(b) <==> x in Elements(b);
        assert x in Sort(a, less) <==> x in multiset(Sort(a, less));
        assert x in Sort(b, less) <==> x in multiset(Sort(b, less));
      }
      SortSorted(a, less);
      SortSorted(b, less);
      StrictlySortedUnique(Sort(a, less), Sort(b, less), less);
    }
    if Sort(a, less) == Sort(b, less) {
      assert forall x :: x in multiset(a) <==> x in multiset(b);
      assert forall x :: x in a <==> x in multiset(a);
      assert forall x :: x in b <==> x in multiset(b);
      assert Elements(a) == Elements(b);
    }
  }
}
