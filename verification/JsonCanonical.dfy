/** Canonical trees represent the trees up to key order, so printed texts decide that equality exactly. */
module JsonCanonical {
  import opened KeySort
  import opened Json
  import opened JsonReading

  lemma CanonicalArrays(x: seq<Json>, y: seq<Json>, less: Order)
    requires |x| == |y| ==>
               forall i | 0 <= i < |x| :: Canonical(x[i], less) == Canonical(y[i], less) <==> Equivalent(x[i], y[i])
    ensures Canonical(JArray(x), less) == Canonical(JArray(y), less) <==> Equivalent(JArray(x), JArray(y))
  {
    var cx, cy := CanonicalItems(x, less), CanonicalItems(y, less);
    if cx == cy {
      forall i | 0 <= i < |x| ensures Equivalent(x[i], y[i]) {
        assert cx[i] == cy[i];
      }
    }
    if Equivalent(JArray(x), JArray(y)) {
      assert cx == cy;
    }
  }

  /** Every member of `x`, made canonical, is a canonical member of `y`. */
  lemma CanonicalSubset(x: seq<Member<Json>>, y: seq<Member<Json>>, less: Order)
    requires KeySet(x) == KeySet(y)
    requires forall i, j | 0 <= i < |x| && 0 <= j < |y| && x[i].key == y[j].key ::
               Canonical(x[i].value, less) == Canonical(y[j].value, less)
    ensures Elements(CanonicalMembers(x, less)) <= Elements(CanonicalMembers(y, less))
  {
    var cx, cy := CanonicalMembers(x, less), CanonicalMembers(y, less);
    forall i | 0 <= i < |cx| ensures cx[i] in cy {
      assert x[i] in x && x[i].key in KeySet(y);
      var m :| m in y && m.key == x[i].key;
      var j :| 0 <= j < |y| && y[j] == m;
      assert cy[j] == cx[i];
    }
  }

  lemma CanonicalKeys(x: seq<Member<Json>>, less: Order)
    ensures KeySet(CanonicalMembers(x, less)) == KeySet(x)
    ensures DistinctKeys(x) ==> DistinctKeys(CanonicalMembers(x, less))
  {
    var cx := CanonicalMembers(x, less);
    forall k ensures k in KeySet(cx) <==> k in KeySet(x) {
      if k in KeySet(cx) {
        var m :| m in cx && m.key == k;
        var i :| 0 <= i < |cx| && cx[i] == m;
        assert x[i] in x;
      }
      if k in KeySet(x) {
        var m :| m in x && m.key == k;
        var i :| 0 <= i < |x| && x[i] == m;
        assert cx[i] in cx;
      }
    }
  }

  lemma CanonicalObjects(x: seq<Member<Json>>, y: seq<Member<Json>>, less: Order)
    requires StrictOrder(less) && DistinctKeys(x) && DistinctKeys(y)
    requires forall i, j | 0 <= i < |x| && 0 <= j < |y| ::
               Canonical(x[i].value, less) == Canonical(y[j].value, less) <==> Equivalent(x[i].value, y[j].value)
    ensures Canonical(JObject(x), less) == Canonical(JObject(y), less) <==> Equivalent(JObject(x), JObject(y))
  {
    var cx, cy := CanonicalMembers(x, less), CanonicalMembers(y, less);
    CanonicalKeys(x, less);
    CanonicalKeys(y, less);
    SortExact(cx, cy, less);
    if Equivalent(JObject(x), JObject(y)) {
      CanonicalSubset(x, y, less);
      CanonicalSubset(y, x, less);
    }
    if Elements(cx) == Elements(cy) {
      assert KeySet(cx) == KeySet(cy) by {
        forall k ensures k in KeySet(cx) <==> k in KeySet(cy) {
          assert forall m :: m in cx <==> m in Elements(cx);
          assert forall m :: m in cy <==> m in Elements(cy);
        }
      }
      forall i, j | 0 <= i < |x| && 0 <= j < |y| && x[i].key == y[j].key
        ensures Equivalent(x[i].value, y[j].value)
      {
        assert cx[i] in Elements(cx);
        assert cx[i] in cy;
        var k :| 0 <= k < |cy| && cy[k] == cx[i];
        assert k == j by {
          assert cy[k].key == cy[j].key;
        }
      }
    }
  }

  /** Two trees have the same canonical tree exactly when they are equal up to key order. */
  lemma {:induction false} CanonicalExact(a: Json, b: Json, less: Order)
    requires StrictOrder(less) && WellFormed(a) && WellFormed(b)
    ensures Canonical(a, less) == Canonical(b, less) <==> Equivalent(a, b)
  {
    match (a, b)
    case (JArray(x), JArray(y)) =>
      if |x| == |y| {
        forall i | 0 <= i < |x| ensures Canonical(x[i], less) == Canonical(y[i], less) <==> Equivalent(x[i], y[i]) {
          CanonicalExact(x[i], y[i], less);
        }
      }
      CanonicalArrays(x, y, less);
    case (JObject(x), JObject(y)) =>
      forall i, j | 0 <= i < |x| && 0 <= j < |y|
        ensures Canonical(x[i].value, less) == Canonical(y[j].value, less) <==> Equivalent(x[i].value, y[j].value)
      {
        CanonicalExact(x[i].value, y[j].value, less);
      }
      CanonicalObjects(x, y, less);
    case _ =>
  }

  /** A JSON reader given a printed text returns the printed value up to key order and consumes all of it. */
  lemma ReadBack(v: Json, less: Order)
    requires StrictOrder(less) && WellFormed(v)
    ensures ReadValue(Print(v, less)).Some?
    ensures ReadValue(Print(v, less)).value.1 == []
    ensures Equivalent(ReadValue(Print(v, less)).value.0, v)
  {
    ReadPrinted(v, less);
    assert Delimited([]);
    assert Print(v, less) + [] == Print(v, less);
    CanonicalIdempotent(v, less);
    CanonicalExact(Canonical(v, less), v, less);
  }

  lemma {:induction false} CanonicalIdempotent(v: Json, less: Order)
    requires StrictOrder(less) && WellFormed(v)
    ensures WellFormed(Canonical(v, less))
    ensures Canonical(Canonical(v, less), less) == Canonical(v, less)
  {
    match v
    case JArray(items) =>
      forall i | 0 <= i < |items|
        ensures WellFormed(Canonical(items[i], less))
             && Canonical(Canonical(items[i], less), less) == Canonical(items[i], less)
      {
        CanonicalIdempotent(items[i], less);
      }
      assert CanonicalItems(CanonicalItems(items, less), less) == CanonicalItems(items, less);
    case JObject(ms) =>
      forall i | 0 <= i < |ms|
        ensures WellFormed(Canonical(ms[i].value, less))
             && Canonical(Canonical(ms[i].value, less), less) == Canonical(ms[i].value, less)
      {
        CanonicalIdempotent(ms[i].value, less);
      }
      CanonicalObjectIdempotent(ms, less);
    case _ =>
  }

  lemma CanonicalObjectIdempotent(ms: seq<Member<Json>>, less: Order)
    requires StrictOrder(less) && DistinctKeys(ms)
    requires forall i | 0 <= i < |ms| ::
               && WellFormed(Canonical(ms[i].value, less))
               && Canonical(Canonical(ms[i].value, less), less) == Canonical(ms[i].value, less)
    ensures WellFormed(Canonical(JObject(ms), less))
    ensures Canonical(Canonical(JObject(ms), less), less) == Canonical(JObject(ms), less)
  {
    var cm := CanonicalMembers(ms, less);
    CanonicalKeys(ms, less);
    SortSorted(cm, less);
    SortedDistinct(Sort(cm, less), less);
    SortKeeps(cm, less);
    assert CanonicalMembers(Sort(cm, less), less) == Sort(cm, less);
    SortTwice(cm, less);
  }

  /** Sorting moves members without changing any. */
  lemma SortKeeps(cm: seq<Member<Json>>, less: Order)
    requires forall i | 0 <= i < |cm| :: WellFormed(cm[i].value) && Canonical(cm[i].value, less) == cm[i].value
    ensures forall i | 0 <= i < |Sort(cm, less)| ::
              WellFormed(Sort(cm, less)[i].value) && Canonical(Sort(cm, less)[i].value, less) == Sort(cm, less)[i].value
  {
    SortElements(cm, less);
    forall i | 0 <= i < |Sort(cm, less)|
      ensures WellFormed(Sort(cm, less)[i].value) && Canonical(Sort(cm, less)[i].value, less) == Sort(cm, less)[i].value
    {
      assert Sort(cm, less)[i] in multiset(cm);
    }
  }

  lemma SortedDistinct<V>(ms: seq<Member<V>>, less: Order)
    requires StrictOrder(less) && StrictlySorted(ms, less)
    ensures DistinctKeys(ms)
  {
    forall i, j | 0 <= i < j < |ms| ensures ms[i].key != ms[j].key {
      OrderTotal(less, ms[i].key, ms[j].key);
    }
  }

  /** The canonical text is exact: texts are equal if and only if the values are equal up to key order. */
  lemma PrintExact(a: Json, b: Json, less: Order)
    requires StrictOrder(less) && WellFormed(a) && WellFormed(b)
    ensures Print(a, less) == Print(b, less) <==> Equivalent(a, b)
  {
    ReadPrinted(a, less);
    ReadPrinted(b, less);
    assert Delimited([]);
    assert Print(a, less) + [] == Print(a, less);
    assert Print(b, less) + [] == Print(b, less);
    CanonicalExact(a, b, less);
    if Canonical(a, less) == Canonical(b, less) {
      PrintCanonical(a, less);
      PrintCanonical(b, less);
    }
  }

  /** Printing does not see the order of keys: a tree and its canonical tree have one text. */
  lemma {:induction false} PrintCanonical(v: Json, less: Order)
    requires StrictOrder(less) && WellFormed(v)
    ensures Print(Canonical(v, less), less) == Print(v, less)
  {
    match v
    case JArray(items) =>
      forall i | 0 <= i < |items| ensures Print(Canonical(items[i], less), less) == Print(items[i], less) {
        PrintCanonical(items[i], less);
      }
      PrintCanonicalItems(items, less);
    case JObject(ms) =>
      forall i | 0 <= i < |ms| ensures Print(Canonical(ms[i].value, less), less) == Print(ms[i].value, less) {
        PrintCanonical(ms[i].value, less);
      }
      PrintCanonicalMembers(ms, less);
      var cm := CanonicalMembers(ms, less);
      PrintSorted(cm, less);
      CanonicalKeys(ms, less);
      PrintedKeys(ms, less);
      SortTwice(PrintMembers(ms, less), less);
    case _ =>
  }

  lemma {:induction false} PrintCanonicalItems(items: seq<Json>, less: Order)
    requires forall i | 0 <= i < |items| :: Print(Canonical(items[i], less), less) == Print(items[i], less)
    ensures PrintItems(CanonicalItems(items, less), less) == PrintItems(items, less)
  {
    if items != [] {
      PrintCanonicalItems(items[1..], less);
      assert CanonicalItems(items, less)[1..] == CanonicalItems(items[1..], less);
    }
  }

  lemma {:induction false} PrintCanonicalMembers(ms: seq<Member<Json>>, less: Order)
    requires forall i | 0 <= i < |ms| :: Print(Canonical(ms[i].value, less), less) == Print(ms[i].value, less)
    ensures PrintMembers(CanonicalMembers(ms, less), less) == PrintMembers(ms, less)
  {
    if ms != [] {
      PrintCanonicalMembers(ms[1..], less);
      assert CanonicalMembers(ms, less)[1..] == CanonicalMembers(ms[1..], less);
    }
  }

  lemma {:induction false} PrintedKeys(ms: seq<Member<Json>>, less: Order)
    ensures |PrintMembers(ms, less)| == |ms|
    ensures forall i | 0 <= i < |ms| :: PrintMembers(ms, less)[i].key == ms[i].key
  {
    if ms != [] {
      PrintedKeys(ms[1..], less);
    }
  }

  lemma SortTwice<V>(ms: seq<Member<V>>, less: Order)
    requires StrictOrder(less) && DistinctKeys(ms)
    ensures Sort(Sort(ms, less), less) == Sort(ms, less)
  {
    SortSorted(ms, less);
    SortedDistinct(Sort(ms, less), less);
    SortSorted(Sort(ms, less), less);
    SortElements(Sort(ms, less), less);
    forall x ensures x in Sort(Sort(ms, less), less) <==> x in Sort(ms, less) {
      assert x in multiset(Sort(Sort(ms, less), less)) <==> x in multiset(Sort(ms, less));
    }
    StrictlySortedUnique(Sort(Sort(ms, less), less), Sort(ms, less), less);
  }
}
