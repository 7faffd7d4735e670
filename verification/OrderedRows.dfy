/** `orderJsonEnvelopeRows`: a stored log comes back in the order its bookmarks recorded. */
module OrderedRows {
  import opened Texts

  datatype Row<T> = Row(id: Text, value: T)

  datatype Ordering<T> = Ordered(values: seq<T>) | MissingRow(id: Text)

  function Values<T>(rows: seq<Row<T>>): (vs: seq<T>)
    ensures |vs| == |rows|
    ensures forall i | 0 <= i < |rows| :: vs[i] == rows[i].value
  {
    seq(|rows|, i requires 0 <= i < |rows| => rows[i].value)
  }

  function Ids<T>(rows: seq<Row<T>>): (ids: seq<Text>)
    ensures |ids| == |rows|
    ensures forall i | 0 <= i < |rows| :: ids[i] == rows[i].id
  {
    seq(|rows|, i requires 0 <= i < |rows| => rows[i].id)
  }

  function IdSet(ids: seq<Text>): set<Text> {
    set id | id in ids
  }

  ghost predicate Distinct(ids: seq<Text>) {
    forall i, j | 0 <= i < j < |ids| :: ids[i] != ids[j]
  }

  ghost predicate DistinctIds<T>(rows: seq<Row<T>>) {
    forall i, j | 0 <= i < j < |rows| :: rows[i].id != rows[j].id
  }

  /** The rows by id; a later row with the same id replaces an earlier one. */
  function ById<T>(rows: seq<Row<T>>): map<Text, Row<T>> {
    if rows == [] then map[]
    else ById(rows[..|rows| - 1])[rows[|rows| - 1].id := rows[|rows| - 1]]
  }

  lemma {:induction false} ByIdMeans<T>(rows: seq<Row<T>>)
    ensures forall r | r in rows :: r.id in ById(rows)
    ensures forall id | id in ById(rows) :: ById(rows)[id] in rows && ById(rows)[id].id == id
  {
    if rows != [] {
      var last := rows[|rows| - 1];
      ByIdMeans(rows[..|rows| - 1]);
      assert rows == rows[..|rows| - 1] + [last];
    }
  }

  /** Every bookmarked id has a row. */
  ghost predicate Present<T>(rows: seq<Row<T>>, ids: seq<Text>) {
    forall k | 0 <= k < |ids| :: ids[k] in ById(rows)
  }

  /** The rows with the given ids, in the order of the ids. */
  ghost function Picked<T>(rows: seq<Row<T>>, ids: seq<Text>): seq<Row<T>>
    requires Present(rows, ids)
  {
    seq(|ids|, k requires 0 <= k < |ids| => ById(rows)[ids[k]])
  }

  /** The rows whose id is not among `ids`, in row order. */
  function Leftovers<T>(rows: seq<Row<T>>, ids: set<Text>): seq<Row<T>> {
    if rows == [] then []
    else (if rows[0].id in ids then [] else [rows[0]]) + Leftovers(rows[1..], ids)
  }

  ghost function Restored<T>(rows: seq<Row<T>>, ids: seq<Text>): seq<Row<T>>
    requires Present(rows, ids)
  {
    if ids == [] then rows else Picked(rows, ids) + Leftovers(rows, IdSet(ids))
  }

  method IndexRows<T>(rows: seq<Row<T>>) returns (rowsById: map<Text, Row<T>>)
    ensures rowsById == ById(rows)
  {
    rowsById := map[];
    for i := 0 to |rows|
      invariant rowsById == ById(rows[..i])
    {
      assert rows[..i + 1][..i] == rows[..i];
      rowsById := rowsById[rows[i].id := rows[i]];
    }
    assert rows[..|rows|] == rows;
  }

  /** An error exactly when some bookmarked id has no row left: it is missing, or bookmarked twice. */
  method OrderRows<T>(rows: seq<Row<T>>, orderedIds: seq<Text>) returns (r: Ordering<T>)
    ensures r.Ordered? <==> Distinct(orderedIds) && Present(rows, orderedIds)
    ensures r.Ordered? ==> r.values == Values(Restored(rows, orderedIds))
    ensures r.MissingRow? ==> r.id in orderedIds
  {
    if |orderedIds| == 0 {
      return Ordered(Values(rows));
    }

    var rowsById := IndexRows(rows);
    ghost var all := rowsById;
    var orderedRows: seq<Row<T>> := [];
    for k := 0 to |orderedIds|
      invariant Present(rows, orderedIds[..k]) && Distinct(orderedIds[..k])
      invariant orderedRows == Picked(rows, orderedIds[..k])
      invariant rowsById == all - IdSet(orderedIds[..k])
    {
      hide ById;
      var id := orderedIds[k];
      assert orderedIds[..k + 1] == orderedIds[..k] + [id];
      if id !in rowsById {
        return MissingRow(id);
      }
      orderedRows := orderedRows + [rowsById[id]];
      rowsById := rowsById - {id};
    }
    assert orderedIds[..|orderedIds|] == orderedIds;

    ByIdMeans(rows);
    ghost var picked := orderedRows;
    for i := 0 to |rows|
      invariant orderedRows == picked + Leftovers(rows[..i], IdSet(orderedIds))
    {
      hide ById, Leftovers;
      LeftoversSnoc(rows[..i], rows[i], IdSet(orderedIds));
      assert rows[..i + 1] == rows[..i] + [rows[i]];
      if rows[i].id in rowsById {
        orderedRows := orderedRows + [rows[i]];
      }
    }
    assert rows[..|rows|] == rows;
    r := Ordered(Values(orderedRows));
  }

  lemma {:induction false} LeftoversSnoc<T>(rows: seq<Row<T>>, row: Row<T>, ids: set<Text>)
    ensures Leftovers(rows + [row], ids) == Leftovers(rows, ids) + if row.id in ids then [] else [row]
  {
    if rows == [] {
      assert rows + [row] == [row];
    } else {
      assert (rows + [row])[1..] == rows[1..] + [row];
      LeftoversSnoc(rows[1..], row, ids);
    }
  }

  /******* Nothing is lost, nothing is invented *******/

  lemma {:induction false} NothingPlaced<T>(rows: seq<Row<T>>, ids: set<Text>, id: Text)
    requires forall r | r in rows :: r.id != id
    ensures Leftovers(rows, ids + {id}) == Leftovers(rows, ids)
  {
    if rows != [] {
      NothingPlaced(rows[1..], ids, id);
    }
  }

  /** Placing one more row takes exactly that row out of the leftovers. */
  lemma {:induction false} PlacingOne<T>(rows: seq<Row<T>>, ids: set<Text>, row: Row<T>)
    requires DistinctIds(rows) && row in rows && row.id !in ids
    ensures multiset(Leftovers(rows, ids)) == multiset(Leftovers(rows, ids + {row.id})) + multiset{row}
  {
    var first, rest, more := rows[0], rows[1..], ids + {row.id};
    var l, m := Leftovers(rest, ids), Leftovers(rest, more);
    assert rows == [first] + rest;
    if first == row {
      NothingPlaced(rest, ids, row.id);
      assert Leftovers(rows, ids) == [row] + l && Leftovers(rows, more) == m == l;
      assert multiset([row] + l) == multiset([row]) + multiset(l);
    } else {
      assert row in rest && first.id != row.id;
      PlacingOne(rest, ids, row);
      var head := if first.id in ids then [] else [first];
      assert Leftovers(rows, ids) == head + l && Leftovers(rows, more) == head + m;
      hide Leftovers, DistinctIds;
      PrependOne(head, l, m, row);
    }
  }

  lemma PlaceLast<X>(placed: seq<X>, l: seq<X>, m: seq<X>, x: X)
    requires multiset(l) == multiset(m) + multiset{x}
    ensures multiset(placed + [x] + m) == multiset(placed + l)
  {
    PrependOne(placed, l, m, x);
    assert multiset(placed + [x] + m) == multiset(placed + m) + multiset{x} by {
      assert placed + [x] + m == placed + ([x] + m);
      PrependOne(placed, [x] + m, m, x);
    }
  }

  lemma PrependOne<X>(head: seq<X>, l: seq<X>, m: seq<X>, x: X)
    requires multiset(l) == multiset(m) + multiset{x}
    ensures multiset(head + l) == multiset(head + m) + multiset{x}
  {
    assert multiset(head + l) == multiset(head) + multiset(l);
    assert multiset(head + m) == multiset(head) + multiset(m);
  }

  lemma {:induction false} NoneLeftOut<T>(rows: seq<Row<T>>)
    ensures Leftovers(rows, {}) == rows
  {
    if rows != [] {
      NoneLeftOut(rows[1..]);
    }
  }

  lemma PickedSnoc<T>(rows: seq<Row<T>>, before: seq<Text>, last: Text)
    requires Present(rows, before) && last in ById(rows)
    ensures Present(rows, before + [last])
    ensures Picked(rows, before + [last]) == Picked(rows, before) + [ById(rows)[last]]
    ensures IdSet(before + [last]) == IdSet(before) + {last}
  {
    hide ById;
  }

  lemma {:induction false} PickedPermutes<T>(rows: seq<Row<T>>, ids: seq<Text>)
    requires DistinctIds(rows) && Distinct(ids) && Present(rows, ids)
    ensures multiset(Picked(rows, ids) + Leftovers(rows, IdSet(ids))) == multiset(rows)
    decreases |ids|
  {
    if ids == [] {
      NoneLeftOut(rows);
      assert IdSet(ids) == {};
    } else {
      var last, before := ids[|ids| - 1], ids[..|ids| - 1];
      ByIdMeans(rows);
      var row := ById(rows)[last];
      assert ids == before + [last];
      PickedPermutes(rows, before);
      hide ById, Leftovers;
      PlacingOne(rows, IdSet(before), row);
      hide DistinctIds;
      PickedSnoc(rows, before, last);
      var l, m := Leftovers(rows, IdSet(before)), Leftovers(rows, IdSet(ids));
      hide Picked, IdSet, Distinct, Present;
      PlaceLast(Picked(rows, before), l, m, row);
    }
  }

  /** With distinct row ids and distinct bookmarks of existing rows, the result is a permutation of the rows. */
  lemma RestoredPermutes<T>(rows: seq<Row<T>>, ids: seq<Text>)
    requires DistinctIds(rows) && Distinct(ids) && Present(rows, ids)
    ensures multiset(Restored(rows, ids)) == multiset(rows)
    ensures forall k | 0 <= k < |ids| :: Restored(rows, ids)[k].id == ids[k]
  {
    PickedPermutes(rows, ids);
    ByIdMeans(rows);
  }

  /******* A stored log reads back as it was *******/

  lemma {:induction false} AllPlaced<T>(rows: seq<Row<T>>, ids: set<Text>)
    requires forall r | r in rows :: r.id in ids
    ensures Leftovers(rows, ids) == []
  {
    if rows != [] {
      AllPlaced(rows[1..], ids);
    }
  }

  lemma SameElements<X>(a: seq<X>, b: seq<X>)
    requires multiset(a) == multiset(b)
    ensures forall x :: x in a <==> x in b
  {
    forall x ensures x in a <==> x in b {
      assert x in a <==> x in multiset(a);
      assert x in b <==> x in multiset(b);
    }
  }

  /** Whatever order the database returns the rows in, the bookmarks restore the log exactly. */
  lemma StoredLogRoundTrip<T>(log: seq<Row<T>>, rows: seq<Row<T>>)
    requires DistinctIds(log) && multiset(rows) == multiset(log)
    ensures Distinct(Ids(log)) && Present(rows, Ids(log))
    ensures Restored(rows, Ids(log)) == log
  {
    SameElements(rows, log);
    ByIdMeans(rows);
    hide ById, Leftovers;
    forall k | 0 <= k < |log| ensures log[k].id in ById(rows) && ById(rows)[log[k].id] == log[k] {
      assert log[k] in rows;
      var r := ById(rows)[log[k].id];
      assert r in log;
    }
    if log == [] {
      assert |multiset(rows)| == |rows|;
    } else {
      forall r | r in rows ensures r.id in IdSet(Ids(log)) {
        var k :| 0 <= k < |log| && log[k] == r;
        assert Ids(log)[k] == r.id;
      }
      AllPlaced(rows, IdSet(Ids(log)));
      assert Picked(rows, Ids(log)) == log;
    }
  }
}
