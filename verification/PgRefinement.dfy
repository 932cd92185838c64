/** The three tables answer as the in-memory map does, except where timestamps of one order run backwards. */
module PgRefinement {
  import opened Wrappers
  import opened PgTables

  // ----- the tables stand for the map -----------------------------------------------------------------------

  ghost predicate RowOk(t: Tables, m: Memory, row: OrderRow) {
    && row.id in m && Head(m[row.id]) == row
    && multiset(Of(t.lines, row.id)) == multiset(m[row.id].lines)
    && Events(Of(t.events, row.id)) == m[row.id].history
  }

  ghost predicate Unique(rows: seq<OrderRow>) { forall i, j :: 0 <= i < j < |rows| ==> rows[i].id != rows[j].id }

  ghost predicate Rising(rows: seq<Row<Numbered>>, nextId: nat) {
    && (forall i :: 0 <= i < |rows| ==> rows[i].value.id < nextId)
    && (forall i, j :: 0 <= i < j < |rows| ==> rows[i].value.id < rows[j].value.id)
  }

  ghost predicate Refer<T>(rows: seq<Row<T>>, m: Memory) { forall i :: 0 <= i < |rows| ==> rows[i].order in m }

  ghost predicate RowsOk(t: Tables, m: Memory) {
    forall i {:trigger t.orders[i]} :: 0 <= i < |t.orders| ==> RowOk(t, m, t.orders[i])
  }

  ghost predicate Covered(t: Tables, m: Memory) { forall id {:trigger id in m} :: id in m ==> Known(t.orders, id) }

  ghost predicate Stands(t: Tables, m: Memory) {
    && Unique(t.orders) && RowsOk(t, m) && Covered(t, m)
    && Refer(t.lines, m) && Refer(t.events, m) && Rising(t.events, t.nextId)
  }

  // ----- create ---------------------------------------------------------------------------------------------

  predicate GoodLines(lines: seq<StoredLine>) {
    && (forall i :: 0 <= i < |lines| ==> lines[i].qty > 0)
    && (forall i, j :: 0 <= i < j < |lines| ==>
         lines[i].sku != lines[j].sku || lines[i].warehouse != lines[j].warehouse)
  }

  function RowsFor(id: string, lines: seq<StoredLine>): seq<Row<StoredLine>> {
    seq(|lines|, i requires 0 <= i < |lines| => Row(id, lines[i]))
  }

  lemma {:induction false} InsertLinesExactly(rows: seq<Row<StoredLine>>, id: string, lines: seq<StoredLine>)
    requires forall i :: 0 <= i < |rows| ==> rows[i].order != id
    ensures InsertLines(rows, id, lines) == if GoodLines(lines) then Some(rows + RowsFor(id, lines)) else None
  {
    if lines == [] {
      assert rows + RowsFor(id, lines) == rows;
    } else {
      var init, last := lines[..|lines| - 1], lines[|lines| - 1];
      InsertLinesExactly(rows, id, init);
      if GoodLines(init) {
        var before := rows + RowsFor(id, init);
        LastLine(rows, id, lines);
        assert before + [Row(id, last)] == rows + RowsFor(id, lines);
      }
    }
  }

  lemma LastLine(rows: seq<Row<StoredLine>>, id: string, lines: seq<StoredLine>)
    requires forall i :: 0 <= i < |rows| ==> rows[i].order != id
    requires lines != [] && GoodLines(lines[..|lines| - 1])
    ensures CanInsertLine(rows + RowsFor(id, lines[..|lines| - 1]), id, lines[|lines| - 1]) <==> GoodLines(lines)
  {
    var init, last := lines[..|lines| - 1], lines[|lines| - 1];
    var before := rows + RowsFor(id, init);
    forall i | 0 <= i < |init| ensures before[|rows| + i] == Row(id, lines[i]) {}
    if CanInsertLine(before, id, last) {
      forall i | 0 <= i < |init| ensures lines[i].sku != last.sku || lines[i].warehouse != last.warehouse {
        assert before[|rows| + i] == Row(id, lines[i]);
      }
      forall i, j | 0 <= i < j < |lines|
        ensures lines[i].sku != lines[j].sku || lines[i].warehouse != lines[j].warehouse
      {
        if j < |init| { assert init[i] == lines[i] && init[j] == lines[j]; }
      }
      forall i | 0 <= i < |lines| ensures lines[i].qty > 0 {
        if i < |init| { assert init[i] == lines[i]; }
      }
    }
  }

  lemma OfNext<T>(rows: seq<Row<T>>, row: Row<T>, id: string)
    ensures Of(rows + [row], id) == if row.order == id then Of(rows, id) + [row.value] else Of(rows, id)
  {
    assert (rows + [row])[..|rows|] == rows;
  }

  lemma RowsForNext(rows: seq<Row<StoredLine>>, id: string, init: seq<StoredLine>, last: StoredLine)
    ensures rows + RowsFor(id, init + [last]) == (rows + RowsFor(id, init)) + [Row(id, last)]
  {
  }

  lemma {:induction false} OfNew(rows: seq<Row<StoredLine>>, id: string, lines: seq<StoredLine>, q: string)
    ensures Of(rows + RowsFor(id, lines), q) == if q == id then Of(rows, q) + lines else Of(rows, q)
  {
    if lines == [] {
      assert rows + RowsFor(id, lines) == rows;
    } else {
      var init, last := lines[..|lines| - 1], lines[|lines| - 1];
      assert lines == init + [last];
      OfNew(rows, id, init, q);
      RowsForNext(rows, id, init, last);
      OfNext(rows + RowsFor(id, init), Row(id, last), q);
      assert (Of(rows, q) + init) + [last] == Of(rows, q) + lines;
    }
  }

  lemma {:induction false} OfNobody<T>(rows: seq<Row<T>>, id: string)
    requires forall i :: 0 <= i < |rows| ==> rows[i].order != id
    ensures Of(rows, id) == []
  {
    if rows != [] { OfNobody(rows[..|rows| - 1], id); }
  }

  /** `create` succeeds exactly for a new id whose values the constraints allow; and then the tables stand for the
      map with the order in it exactly when its history is empty, for `create` writes no events. */
  lemma InsertRefines(t: Tables, m: Memory, o: StoredOrder)
    requires Stands(t, m)
    ensures Insert(t, o).Some? <==> o.id !in m && o.amount > 0 && GoodLines(o.lines)
    ensures Insert(t, o).Some? ==> (Stands(Insert(t, o).value, m[o.id := o]) <==> o.history == [])
  {
    if o.id in m { assert Known(t.orders, o.id); }
    forall i | 0 <= i < |t.orders| ensures t.orders[i].id in m { assert RowOk(t, m, t.orders[i]); }
    if o.id !in m {
      InsertLinesExactly(t.lines, o.id, o.lines);
      if Insert(t, o).Some? { InsertStands(t, m, o, Insert(t, o).value); }
    }
  }

  lemma InsertStands(t: Tables, m: Memory, o: StoredOrder, t': Tables)
    requires Stands(t, m) && o.id !in m
    requires t' == t.(orders := t.orders + [Head(o)], lines := t.lines + RowsFor(o.id, o.lines))
    ensures Stands(t', m[o.id := o]) <==> o.history == []
  {
    var m' := m[o.id := o];
    NewRow(t, m, o, t');
    assert t'.orders[|t.orders|] == Head(o);
    if o.history == [] {
      forall i | 0 <= i < |t'.orders| ensures RowOk(t', m', t'.orders[i]) {
        if i < |t.orders| { OldRow(t, m, o, t', i); }
      }
      InsertFrame(t, m, o, t');
    }
    assert Stands(t', m') ==> RowOk(t', m', t'.orders[|t.orders|]);
  }

  lemma NewRow(t: Tables, m: Memory, o: StoredOrder, t': Tables)
    requires Refer(t.lines, m) && Refer(t.events, m) && o.id !in m
    requires t'.lines == t.lines + RowsFor(o.id, o.lines) && t'.events == t.events
    ensures RowOk(t', m[o.id := o], Head(o)) <==> o.history == []
  {
    OfNew(t.lines, o.id, o.lines, o.id);
    OfNobody(t.lines, o.id);
    OfNobody(t.events, o.id);
    assert Events(Of(t'.events, o.id)) == [];
  }

  lemma OldRow(t: Tables, m: Memory, o: StoredOrder, t': Tables, i: nat)
    requires RowsOk(t, m) && o.id !in m && i < |t.orders| && t'.orders == t.orders + [Head(o)]
    requires t'.lines == t.lines + RowsFor(o.id, o.lines) && t'.events == t.events
    ensures RowOk(t', m[o.id := o], t'.orders[i])
  {
    assert RowOk(t, m, t.orders[i]);
    OfNew(t.lines, o.id, o.lines, t.orders[i].id);
  }

  lemma InsertFrame(t: Tables, m: Memory, o: StoredOrder, t': Tables)
    requires Stands(t, m) && o.id !in m
    requires t' == t.(orders := t.orders + [Head(o)], lines := t.lines + RowsFor(o.id, o.lines))
    ensures var m' := m[o.id := o];
      && Unique(t'.orders) && Covered(t', m')
      && Refer(t'.lines, m') && Refer(t'.events, m') && Rising(t'.events, t'.nextId)
  {
    forall i | 0 <= i < |t.orders| ensures t.orders[i].id in m { assert RowOk(t, m, t.orders[i]); }
    InsertUnique(t.orders, Head(o));
    InsertCovers(t, m, o, t');
    InsertRefers(t.lines, m, o);
    MoreKeys(t.events, m, o);
  }

  lemma InsertUnique(rows: seq<OrderRow>, row: OrderRow)
    requires Unique(rows) && forall i :: 0 <= i < |rows| ==> rows[i].id != row.id
    ensures Unique(rows + [row])
  {
  }

  lemma InsertCovers(t: Tables, m: Memory, o: StoredOrder, t': Tables)
    requires Covered(t, m) && t'.orders == t.orders + [Head(o)]
    ensures Covered(t', m[o.id := o])
  {
    forall id | id in m ensures Known(t'.orders, id) {
      assert Known(t.orders, id);
      var i :| 0 <= i < |t.orders| && t.orders[i].id == id;
      assert t'.orders[i].id == id;
    }
    assert t'.orders[|t.orders|].id == o.id;
  }

  lemma InsertRefers(rows: seq<Row<StoredLine>>, m: Memory, o: StoredOrder)
    requires Refer(rows, m)
    ensures Refer(rows + RowsFor(o.id, o.lines), m[o.id := o])
  {
  }

  lemma MoreKeys<T>(rows: seq<Row<T>>, m: Memory, o: StoredOrder)
    requires Refer(rows, m)
    ensures Refer(rows, m[o.id := o])
  {
  }

  // ----- updateStatus -----------------------------------------------------------------------------------------

  lemma EventsNext(rows: seq<Numbered>, n: Numbered)
    ensures Events(rows + [n]) == Events(rows) + [n.event]
  {
    assert (rows + [n])[..|rows|] == rows;
  }

  /** `updateStatus` fails on the same ids as the map's does, and otherwise does the same. */
  lemma UpdateRefines(t: Tables, m: Memory, id: string, status: string, event: StoredEvent)
    requires Stands(t, m)
    ensures Update(t, id, status, event).Some? <==> MemoryUpdate(m, id, status, event).Some?
    ensures Update(t, id, status, event).Some? ==>
      Stands(Update(t, id, status, event).value, MemoryUpdate(m, id, status, event).value)
  {
    KnownIff(t, m, id);
    if id in m {
      UpdateStands(t, m, id, status, event, Update(t, id, status, event).value,
        MemoryUpdate(m, id, status, event).value);
    }
  }

  lemma UpdateStands(t: Tables, m: Memory, id: string, status: string, event: StoredEvent, t': Tables, m': Memory)
    requires Stands(t, m) && Update(t, id, status, event) == Some(t') && MemoryUpdate(m, id, status, event) == Some(m')
    ensures Stands(t', m')
  {
    UpdateRows(t, m, id, status, event, t', m');
    UpdateKeeps(t, m, id, status, event, t', m');
  }

  lemma UpdateKeeps(t: Tables, m: Memory, id: string, status: string, event: StoredEvent, t': Tables, m': Memory)
    requires Update(t, id, status, event) == Some(t') && m'.Keys == m.Keys && id in m
    requires Unique(t.orders) && Covered(t, m) && Refer(t.lines, m) && Refer(t.events, m) && Rising(t.events, t.nextId)
    ensures Unique(t'.orders) && Covered(t', m')
    ensures Refer(t'.lines, m') && Refer(t'.events, m') && Rising(t'.events, t'.nextId)
  {
    UpdateCovers(t, m, id, status, t', m');
    NextEvent(t.events, t.nextId, m, id, event);
    SameKeys(t.lines, m, m');
    SameKeys(t'.events, m, m');
  }

  lemma UpdateRows(t: Tables, m: Memory, id: string, status: string, event: StoredEvent, t': Tables, m': Memory)
    requires RowsOk(t, m) && Update(t, id, status, event) == Some(t') && MemoryUpdate(m, id, status, event) == Some(m')
    ensures RowsOk(t', m')
  {
    forall i | 0 <= i < |t'.orders| ensures RowOk(t', m', t'.orders[i]) {
      assert RowOk(t, m, t.orders[i]);
      UpdatedRow(t, m, id, status, event, t.orders[i]);
      SameRow(t, t', m', t'.orders[i]);
    }
  }

  lemma SameRow(t: Tables, t': Tables, m: Memory, row: OrderRow)
    requires RowOk(t.(events := t'.events), m, row) && t'.lines == t.lines
    ensures RowOk(t', m, row)
  {
  }

  lemma SameKeys<T>(rows: seq<Row<T>>, m: Memory, m': Memory)
    requires Refer(rows, m) && m'.Keys == m.Keys
    ensures Refer(rows, m')
  {
    forall i | 0 <= i < |rows| ensures rows[i].order in m' { assert rows[i].order in m.Keys; }
  }

  lemma UpdateCovers(t: Tables, m: Memory, id: string, status: string, t': Tables, m': Memory)
    requires Unique(t.orders) && Covered(t, m) && t'.orders == SetStatus(t.orders, id, status) && m'.Keys == m.Keys
    ensures Unique(t'.orders) && Covered(t', m')
  {
    forall q | q in m' ensures Known(t'.orders, q) {
      assert q in m && Known(t.orders, q);
      var i :| 0 <= i < |t.orders| && t.orders[i].id == q;
      assert t'.orders[i].id == q;
    }
    forall i, j | 0 <= i < j < |t'.orders| ensures t'.orders[i].id != t'.orders[j].id {
      assert t.orders[i].id != t.orders[j].id;
    }
  }

  lemma NextEvent(rows: seq<Row<Numbered>>, nextId: nat, m: Memory, id: string, event: StoredEvent)
    requires Rising(rows, nextId) && Refer(rows, m) && id in m
    ensures var rows' := rows + [Row(id, Numbered(nextId, event))]; Rising(rows', nextId + 1) && Refer(rows', m)
  {
  }

  lemma UpdatedRow(t: Tables, m: Memory, id: string, status: string, event: StoredEvent, row: OrderRow)
    requires id in m && RowOk(t, m, row)
    ensures var m' := m[id := m[id].(status := status, history := m[id].history + [event])];
      RowOk(t.(events := t.events + [Row(id, Numbered(t.nextId, event))]), m',
            if row.id == id then row.(status := status) else row)
  {
    var n := Numbered(t.nextId, event);
    OfNext(t.events, Row(id, n), row.id);
    EventsNext(Of(t.events, row.id), n);
  }

  lemma KnownIff(t: Tables, m: Memory, id: string)
    requires Stands(t, m)
    ensures Known(t.orders, id) <==> id in m
  {
    if Known(t.orders, id) {
      var i :| 0 <= i < |t.orders| && t.orders[i].id == id;
      assert RowOk(t, m, t.orders[i]);
    }
  }

  // ----- the sort -----------------------------------------------------------------------------------------------

  ghost predicate Sorted(rows: seq<Row<Numbered>>) { forall i, j :: 0 <= i < j < |rows| ==> Before(rows[i], rows[j]) }

  lemma {:induction false} PlaceMembers(rows: seq<Row<Numbered>>, row: Row<Numbered>)
    ensures forall x :: x in Place(rows, row) <==> x in rows || x == row
  {
    if rows != [] && !Before(rows[|rows| - 1], row) {
      PlaceMembers(rows[..|rows| - 1], row);
      assert rows == rows[..|rows| - 1] + [rows[|rows| - 1]];
    }
  }

  lemma {:induction false} PlaceSorted(rows: seq<Row<Numbered>>, row: Row<Numbered>)
    requires Sorted(rows)
    ensures Sorted(Place(rows, row))
  {
    if rows != [] && !Before(rows[|rows| - 1], row) {
      var init, last := rows[..|rows| - 1], rows[|rows| - 1];
      PlaceSorted(init, row);
      PlaceMembers(init, row);
      var placed := Place(init, row);
      forall i | 0 <= i < |placed| ensures Before(placed[i], last) {
        assert placed[i] in placed;
        if placed[i] != row {
          var k :| 0 <= k < |init| && init[k] == placed[i];
          assert Before(rows[k], rows[|rows| - 1]);
        }
      }
    } else if rows != [] {
      forall i | 0 <= i < |rows| ensures Before(rows[i], row) {
        assert i < |rows| - 1 ==> Before(rows[i], rows[|rows| - 1]);
      }
    }
  }

  lemma {:induction false} OrderedSorted(rows: seq<Row<Numbered>>)
    ensures Sorted(Ordered(rows))
  {
    if rows != [] {
      OrderedSorted(rows[..|rows| - 1]);
      PlaceSorted(Ordered(rows[..|rows| - 1]), rows[|rows| - 1]);
    }
  }

  lemma {:induction false} SortedStays(rows: seq<Row<Numbered>>)
    requires Sorted(rows)
    ensures Ordered(rows) == rows
  {
    if rows != [] {
      var init := rows[..|rows| - 1];
      SortedStays(init);
      assert rows == init + [rows[|rows| - 1]];
      if init != [] { assert Before(rows[|rows| - 2], rows[|rows| - 1]); }
    }
  }

  lemma InNext<T>(rows: seq<Row<T>>, row: Row<T>, ids: seq<string>)
    ensures In(rows + [row], ids) == if row.order in ids then In(rows, ids) + [row] else In(rows, ids)
  {
    assert (rows + [row])[..|rows|] == rows;
  }

  lemma {:induction false} InMembers<T(!new)>(rows: seq<Row<T>>, ids: seq<string>)
    ensures forall x :: x in In(rows, ids) <==> x in rows && x.order in ids
  {
    if rows != [] {
      InMembers(rows[..|rows| - 1], ids);
      assert rows == rows[..|rows| - 1] + [rows[|rows| - 1]];
    }
  }

  lemma PlaceLast(rows: seq<Row<Numbered>>, row: Row<Numbered>, ids: seq<string>)
    requires Sorted(rows) && (rows == [] || Before(rows[|rows| - 1], row))
    ensures Place(In(rows, ids), row) == In(rows, ids) + [row]
  {
    InMembers(rows, ids);
    var kept := In(rows, ids);
    if kept != [] {
      assert kept[|kept| - 1] in kept;
      var k :| 0 <= k < |rows| && rows[k] == kept[|kept| - 1];
      assert k < |rows| - 1 ==> Before(rows[k], rows[|rows| - 1]);
    }
  }

  lemma {:induction false} PlaceIn(rows: seq<Row<Numbered>>, row: Row<Numbered>, ids: seq<string>)
    requires Sorted(rows)
    ensures In(Place(rows, row), ids) == if row.order in ids then Place(In(rows, ids), row) else In(rows, ids)
  {
    if rows == [] || Before(rows[|rows| - 1], row) {
      PlaceInAfter(rows, row, ids);
    } else {
      PlaceIn(rows[..|rows| - 1], row, ids);
      PlaceInWithin(rows, row, ids);
    }
  }

  lemma PlaceInAfter(rows: seq<Row<Numbered>>, row: Row<Numbered>, ids: seq<string>)
    requires Sorted(rows) && (rows == [] || Before(rows[|rows| - 1], row))
    ensures In(Place(rows, row), ids) == if row.order in ids then Place(In(rows, ids), row) else In(rows, ids)
  {
    InNext(rows, row, ids);
    PlaceLast(rows, row, ids);
  }

  lemma PlaceInWithin(rows: seq<Row<Numbered>>, row: Row<Numbered>, ids: seq<string>)
    requires rows != [] && !Before(rows[|rows| - 1], row)
    requires var init := rows[..|rows| - 1];
      In(Place(init, row), ids) == if row.order in ids then Place(In(init, ids), row) else In(init, ids)
    ensures In(Place(rows, row), ids) == if row.order in ids then Place(In(rows, ids), row) else In(rows, ids)
  {
    var init, last := rows[..|rows| - 1], rows[|rows| - 1];
    assert rows == init + [last];
    PlaceInBefore(init, last, row, ids);
  }

  lemma PlaceInBefore(init: seq<Row<Numbered>>, last: Row<Numbered>, row: Row<Numbered>, ids: seq<string>)
    requires !Before(last, row)
    requires In(Place(init, row), ids) == if row.order in ids then Place(In(init, ids), row) else In(init, ids)
    ensures In(Place(init + [last], row), ids)
      == if row.order in ids then Place(In(init + [last], ids), row) else In(init + [last], ids)
  {
    PlaceBefore(init, last, row);
    InNext(Place(init, row), last, ids);
    InNext(init, last, ids);
    PlaceBefore(In(init, ids), last, row);
  }

  lemma PlaceBefore(rows: seq<Row<Numbered>>, last: Row<Numbered>, row: Row<Numbered>)
    requires !Before(last, row)
    ensures Place(rows + [last], row) == Place(rows, row) + [last]
  {
    assert (rows + [last])[..|rows|] == rows;
  }

  lemma OrderedNext(rows: seq<Row<Numbered>>, row: Row<Numbered>)
    ensures Ordered(rows + [row]) == Place(Ordered(rows), row)
  {
    assert (rows + [row])[..|rows|] == rows;
  }

  /** Sorting the events of many orders together sorts those of each. */
  lemma {:induction false} SortCommutes(rows: seq<Row<Numbered>>, ids: seq<string>)
    ensures In(Ordered(rows), ids) == Ordered(In(rows, ids))
  {
    if rows != [] {
      var init, last := rows[..|rows| - 1], rows[|rows| - 1];
      SortCommutes(init, ids);
      OrderedSorted(init);
      PlaceIn(Ordered(init), last, ids);
      OrderedNext(In(init, ids), last);
      InNext(init, last, ids);
      assert rows == init + [last];
    }
  }

  lemma {:induction false} OfIn<T>(rows: seq<Row<T>>, ids: seq<string>, id: string)
    requires id in ids
    ensures Of(In(rows, ids), id) == Of(rows, id)
  {
    if rows != [] {
      var init, last := rows[..|rows| - 1], rows[|rows| - 1];
      OfIn(init, ids, id);
      OfNext(In(init, ids), last, id);
      InNext(init, last, ids);
      OfNext(init, last, id);
      assert rows == init + [last];
    }
  }

  // ----- reading back -------------------------------------------------------------------------------------------

  predicate InOrder(history: seq<StoredEvent>) {
    forall i, j :: 0 <= i < j < |history| ==> history[i].at <= history[j].at
  }

  /** The same order, up to the order of its lines. */
  ghost predicate Same(a: StoredOrder, b: StoredOrder) {
    a.(lines := []) == b.(lines := []) && multiset(a.lines) == multiset(b.lines)
  }

  lemma {:induction false} OneOrders<T>(rows: seq<Row<T>>, id: string)
    requires forall i :: 0 <= i < |rows| ==> rows[i].order == id
    ensures |Of(rows, id)| == |rows| && forall i :: 0 <= i < |rows| ==> Of(rows, id)[i] == rows[i].value
  {
    if rows != [] { OneOrders(rows[..|rows| - 1], id); }
  }

  lemma {:induction false} EventsAt(rows: seq<Numbered>)
    ensures |Events(rows)| == |rows| && forall i :: 0 <= i < |rows| ==> Events(rows)[i] == rows[i].event
  {
    if rows != [] { EventsAt(rows[..|rows| - 1]); }
  }

  lemma RisingMembers(rows: seq<Row<Numbered>>, nextId: nat)
    requires rows != [] && Rising(rows, nextId)
    ensures var init, last := rows[..|rows| - 1], rows[|rows| - 1];
      Rising(init, last.value.id) && last.value.id < nextId
  {
  }

  lemma RisingOn(rows: seq<Row<Numbered>>, last: Row<Numbered>, nextId: nat)
    requires Rising(rows, last.value.id) && last.value.id < nextId
    ensures Rising(rows, nextId) && Rising(rows + [last], nextId)
  {
  }

  lemma {:induction false} InRising(rows: seq<Row<Numbered>>, nextId: nat, ids: seq<string>)
    requires Rising(rows, nextId)
    ensures Rising(In(rows, ids), nextId)
  {
    if rows != [] {
      var init, last := rows[..|rows| - 1], rows[|rows| - 1];
      RisingMembers(rows, nextId);
      InRising(init, last.value.id, ids);
      RisingOn(In(init, ids), last, nextId);
      InNext(init, last, ids);
      assert rows == init + [last];
    }
  }

  /** The events of an order come back in the order they were recorded exactly when their timestamps never ran
      backwards. */
  lemma HistoryExactly(rows: seq<Row<Numbered>>, nextId: nat, id: string)
    requires Rising(rows, nextId)
    ensures Events(Of(Ordered(rows), id)) == Events(Of(rows, id)) <==> InOrder(Events(Of(rows, id)))
  {
    var mine := In(rows, [id]);
    OfIn(rows, [id], id);
    OfIn(Ordered(rows), [id], id);
    SortCommutes(rows, [id]);
    OrderedSorted(mine);
    InRising(rows, nextId, [id]);
    InMembers(rows, [id]);
    InMembers(Ordered(rows), [id]);
    OneOrder(mine, id);
    OneOrder(Ordered(mine), id);
    if InOrder(Events(Of(mine, id))) {
      forall i, j | 0 <= i < j < |mine| ensures Before(mine[i], mine[j]) {
        assert Events(Of(mine, id))[i].at <= Events(Of(mine, id))[j].at;
      }
      SortedStays(mine);
    }
    if Events(Of(Ordered(mine), id)) == Events(Of(mine, id)) {
      var h := Events(Of(Ordered(mine), id));
      forall i, j | 0 <= i < j < |h| ensures h[i].at <= h[j].at {
        assert Before(Ordered(mine)[i], Ordered(mine)[j]);
      }
    }
  }

  lemma OneOrder(rows: seq<Row<Numbered>>, id: string)
    requires forall x <- rows :: x.order == id
    ensures var h := Events(Of(rows, id)); |h| == |rows| && forall i :: 0 <= i < |h| ==> h[i] == rows[i].value.event
  {
    forall i | 0 <= i < |rows| ensures rows[i].order == id { assert rows[i] in rows; }
    OneOrders(rows, id);
    EventsAt(Of(rows, id));
  }

  /** An order read from the tables is the order in the map, lines in any order, exactly when its timestamps never
      ran backwards. */
  lemma HydratedExactly(t: Tables, m: Memory, row: OrderRow)
    requires Stands(t, m) && row in t.orders
    ensures row.id in m && (Same(Hydrated(t, row), m[row.id]) <==> InOrder(m[row.id].history))
  {
    var i :| 0 <= i < |t.orders| && t.orders[i] == row;
    assert RowOk(t, m, t.orders[i]);
    HistoryExactly(t.events, t.nextId, row.id);
  }

  // ----- queries ------------------------------------------------------------------------------------------------

  lemma {:induction false} FindExactly(rows: seq<OrderRow>, id: string, scope: Scope)
    requires Unique(rows)
    ensures match Find(rows, id, scope)
      case Some(row) => row in rows && row.id == id && Visible(row.business, scope)
      case None => forall row <- rows :: !(row.id == id && Visible(row.business, scope))
  {
    if rows != [] {
      forall i, j | 0 <= i < j < |rows[1..]| ensures rows[1..][i].id != rows[1..][j].id {
        assert rows[i + 1].id != rows[j + 1].id;
      }
      FindExactly(rows[1..], id, scope);
      assert rows == [rows[0]] + rows[1..];
    }
  }

  /** `get` finds what the map's `get` finds, under every scope. */
  lemma GetRefines(t: Tables, m: Memory, id: string, scope: Scope)
    requires Stands(t, m)
    ensures Find(t.orders, id, scope).Some? <==> MemoryGet(m, id, scope).Some?
    ensures Find(t.orders, id, scope).Some? <==> id in m && (scope == Anyone || m[id].business == scope.business)
    ensures Find(t.orders, id, scope).Some? ==>
      (Same(Hydrated(t, Find(t.orders, id, scope).value), MemoryGet(m, id, scope).value) <==> InOrder(m[id].history))
  {
    FindExactly(t.orders, id, scope);
    match Find(t.orders, id, scope)
    case Some(row) =>
      HydratedExactly(t, m, row);
      AsInMemory(t, m, row);
    case None =>
      if id in m {
        assert Known(t.orders, id);
        var i :| 0 <= i < |t.orders| && t.orders[i].id == id;
        assert t.orders[i] in t.orders;
        AsInMemory(t, m, t.orders[i]);
      }
  }

  lemma AsInMemory(t: Tables, m: Memory, row: OrderRow)
    requires Stands(t, m) && row in t.orders
    ensures row.id in m && row.business == m[row.id].business && row.status == m[row.id].status
  {
    var i :| 0 <= i < |t.orders| && t.orders[i] == row;
    assert RowOk(t, m, t.orders[i]);
  }

  lemma {:induction false} SelectMembers(rows: seq<OrderRow>, where: Where)
    requires Unique(rows)
    ensures Unique(Select(rows, where))
    ensures forall row :: row in Select(rows, where) <==> row in rows && Meets(row.business, row.status, where)
  {
    if rows != [] {
      var init, last := rows[..|rows| - 1], rows[|rows| - 1];
      SelectMembers(init, where);
      assert rows == init + [last];
      var kept := Select(init, where);
      forall i | 0 <= i < |kept| ensures kept[i].id != last.id {
        assert kept[i] in kept;
        var k :| 0 <= k < |init| && init[k] == kept[i];
        assert rows[k].id != rows[|rows| - 1].id;
      }
    }
  }

  ghost predicate Ascending(rows: seq<OrderRow>) {
    forall i, j :: 0 <= i < j < |rows| ==> rows[i].createdAt <= rows[j].createdAt
  }

  lemma {:induction false} PlaceOrderMembers(rows: seq<OrderRow>, row: OrderRow)
    ensures forall r :: r in PlaceOrder(rows, row) <==> r in rows || r == row
  {
    if rows != [] && row.createdAt < rows[|rows| - 1].createdAt {
      PlaceOrderMembers(rows[..|rows| - 1], row);
      assert rows == rows[..|rows| - 1] + [rows[|rows| - 1]];
    }
  }

  lemma {:induction false} PlaceOrderOk(rows: seq<OrderRow>, row: OrderRow)
    requires Unique(rows) && Ascending(rows) && forall r <- rows :: r.id != row.id
    ensures Unique(PlaceOrder(rows, row)) && Ascending(PlaceOrder(rows, row))
  {
    if rows != [] && row.createdAt < rows[|rows| - 1].createdAt {
      var init, last := rows[..|rows| - 1], rows[|rows| - 1];
      assert rows == init + [last] && last in rows;
      BeforeLast(rows);
      PlaceOrderOk(init, row);
      PlaceOrderMembers(init, row);
      PutLast(PlaceOrder(init, row), last);
    }
  }

  lemma BeforeLast(rows: seq<OrderRow>)
    requires rows != [] && Unique(rows) && Ascending(rows)
    ensures var init, last := rows[..|rows| - 1], rows[|rows| - 1];
      Unique(init) && Ascending(init) && forall r <- init :: r.id != last.id && r.createdAt <= last.createdAt
  {
    var init := rows[..|rows| - 1];
    forall r | r in init ensures r.id != rows[|rows| - 1].id && r.createdAt <= rows[|rows| - 1].createdAt {
      var k :| 0 <= k < |init| && init[k] == r;
      assert rows[k].id != rows[|rows| - 1].id && rows[k].createdAt <= rows[|rows| - 1].createdAt;
    }
  }

  lemma PutLast(rows: seq<OrderRow>, last: OrderRow)
    requires Unique(rows) && Ascending(rows) && forall r <- rows :: r.id != last.id && r.createdAt <= last.createdAt
    ensures Unique(rows + [last]) && Ascending(rows + [last])
  {
    forall i | 0 <= i < |rows| ensures rows[i].id != last.id && rows[i].createdAt <= last.createdAt {
      assert rows[i] in rows;
    }
  }

  lemma {:induction false} OldestMembers(rows: seq<OrderRow>)
    requires Unique(rows)
    ensures Unique(Oldest(rows)) && Ascending(Oldest(rows)) && forall row :: row in Oldest(rows) <==> row in rows
  {
    if rows != [] {
      var init, last := rows[..|rows| - 1], rows[|rows| - 1];
      OldestMembers(init);
      assert rows == init + [last];
      forall r | r in Oldest(init) ensures r.id != last.id {
        var k :| 0 <= k < |init| && init[k] == r;
        assert rows[k].id != rows[|rows| - 1].id;
      }
      PlaceOrderOk(Oldest(init), last);
      PlaceOrderMembers(Oldest(init), last);
    }
  }

  /** The conditions of the queries are those of the map's own lists. */
  lemma MeetsExactly(t: Tables, m: Memory, row: OrderRow, where: Where)
    requires Stands(t, m) && row in t.orders
    ensures row.id in m && (Meets(row.business, row.status, where) <==> Listed(m[row.id], where))
  {
    AsInMemory(t, m, row);
  }

  lemma QueryLists(t: Tables, m: Memory, where: Where, id: string)
    requires Stands(t, m)
    ensures Known(Oldest(Select(t.orders, where)), id) <==> id in m && Listed(m[id], where)
  {
    var rows := Oldest(Select(t.orders, where));
    SelectMembers(t.orders, where);
    OldestMembers(Select(t.orders, where));
    if id in m && Listed(m[id], where) {
      assert Known(t.orders, id);
      var i :| 0 <= i < |t.orders| && t.orders[i].id == id;
      MeetsExactly(t, m, t.orders[i], where);
      assert t.orders[i] in rows;
      var k :| 0 <= k < |rows| && rows[k] == t.orders[i];
    }
    if Known(rows, id) {
      var k :| 0 <= k < |rows| && rows[k].id == id;
      assert rows[k] in rows;
      MeetsExactly(t, m, rows[k], where);
    }
  }

  /** `all` and `nonTerminal` list the orders the map lists, once each, oldest first. */
  lemma QueryRefines(t: Tables, m: Memory, where: Where)
    requires Stands(t, m)
    ensures var rows := Oldest(Select(t.orders, where));
      && Unique(rows) && Ascending(rows)
      && (forall id :: id in MemoryIds(m, where) <==> Known(rows, id))
      && (forall row <- rows :: row.id in m && (Same(Hydrated(t, row), m[row.id]) <==> InOrder(m[row.id].history)))
  {
    var rows := Oldest(Select(t.orders, where));
    SelectMembers(t.orders, where);
    OldestMembers(Select(t.orders, where));
    forall row | row in rows
      ensures row.id in m && (Same(Hydrated(t, row), m[row.id]) <==> InOrder(m[row.id].history))
    {
      HydratedExactly(t, m, row);
    }
    forall id ensures id in MemoryIds(m, where) <==> Known(rows, id) { QueryLists(t, m, where, id); }
  }

  /** Spelled out on what the map holds: without a scope every order is listed; */
  lemma AllSpelled(t: Tables, m: Memory, id: string)
    requires Stands(t, m)
    ensures Known(Oldest(Select(t.orders, InScope(Anyone))), id) <==> id in m
  {
    QueryLists(t, m, InScope(Anyone), id);
  }

  /** under one, exactly those of that business, or of nobody; */
  lemma ScopeSpelled(t: Tables, m: Memory, id: string, business: Option<string>)
    requires Stands(t, m)
    ensures Known(Oldest(Select(t.orders, InScope(Only(business)))), id) <==> id in m && m[id].business == business
  {
    QueryLists(t, m, InScope(Only(business)), id);
  }

  /** and as unfinished exactly those whose status is none of these three. */
  lemma UnfinishedSpelled(t: Tables, m: Memory, id: string)
    requires Stands(t, m)
    ensures Known(Oldest(Select(t.orders, NotTerminal)), id)
      <==> id in m && m[id].status != "CONFIRMED" && m[id].status != "CANCELLED" && m[id].status != "FAILED"
  {
    QueryLists(t, m, NotTerminal, id);
    if id in m { NotTerminalSpelled(m[id]); }
  }

  lemma NotTerminalSpelled(o: StoredOrder)
    ensures Listed(o, NotTerminal)
      <==> o.status != "CONFIRMED" && o.status != "CANCELLED" && o.status != "FAILED"
  {
  }

  /** No order is in the scope of two businesses, nobody counting as one. */
  lemma ScopesApart(t: Tables, m: Memory, id: string, a: Option<string>, b: Option<string>)
    requires Stands(t, m) && a != b
    ensures Find(t.orders, id, Only(a)).None? || Find(t.orders, id, Only(b)).None?
    ensures id in m <==> Find(t.orders, id, Anyone).Some?
  {
    GetRefines(t, m, id, Only(a));
    GetRefines(t, m, id, Only(b));
    GetRefines(t, m, id, Anyone);
  }

  // ----- whole runs ----------------------------------------------------------------------------------------------

  datatype Command = Create(o: StoredOrder) | UpdateStatus(id: string, status: string, event: StoredEvent)

  /** A refused write changes nothing. */
  function DoTables(t: Tables, c: Command): Tables {
    match c
    case Create(o) => var r := Insert(t, o); if r.Some? then r.value else t
    case UpdateStatus(id, status, event) => var r := Update(t, id, status, event); if r.Some? then r.value else t
  }

  function DoMemory(m: Memory, c: Command): Memory {
    match c
    case Create(o) => m[o.id := o]
    case UpdateStatus(id, status, event) => var r := MemoryUpdate(m, id, status, event); if r.Some? then r.value else m
  }

  function AllTables(cs: seq<Command>): Tables {
    if cs == [] then NOTHING else DoTables(AllTables(cs[..|cs| - 1]), cs[|cs| - 1])
  }

  function AllMemory(cs: seq<Command>): Memory {
    if cs == [] then map[] else DoMemory(AllMemory(cs[..|cs| - 1]), cs[|cs| - 1])
  }

  /** What the orchestrator asks of a store: a new order has a new id, no history, and lines the schema allows. */
  predicate Fitting(m: Memory, c: Command) {
    c.Create? ==> c.o.id !in m && c.o.amount > 0 && GoodLines(c.o.lines) && c.o.history == []
  }

  ghost predicate AllFitting(cs: seq<Command>) {
    forall k :: 0 <= k < |cs| ==> Fitting(AllMemory(cs[..k]), cs[k])
  }

  /** After any fitting sequence of writes the tables stand for the map. */
  lemma {:induction false} WritesRefine(cs: seq<Command>)
    requires AllFitting(cs)
    ensures Stands(AllTables(cs), AllMemory(cs))
  {
    if cs != [] {
      var init, c := cs[..|cs| - 1], cs[|cs| - 1];
      forall k | 0 <= k < |init| ensures Fitting(AllMemory(init[..k]), init[k]) {
        assert init[..k] == cs[..k];
      }
      WritesRefine(init);
      assert Fitting(AllMemory(cs[..|cs| - 1]), cs[|cs| - 1]);
      match c
      case Create(o) => InsertRefines(AllTables(init), AllMemory(init), o);
      case UpdateStatus(id, status, event) => UpdateRefines(AllTables(init), AllMemory(init), id, status, event);
    }
  }

  /** The answers stay right whatever order the server returns lines in. */
  lemma LinesInAnyOrder(t: Tables, m: Memory, lines: seq<Row<StoredLine>>)
    requires Stands(t, m) && multiset(lines) == multiset(t.lines)
    ensures Stands(t.(lines := lines), m)
  {
    var t' := t.(lines := lines);
    forall i | 0 <= i < |t'.orders| ensures RowOk(t', m, t'.orders[i]) {
      assert RowOk(t, m, t.orders[i]);
      var id := t.orders[i].id;
      forall line: StoredLine ensures multiset(Of(lines, id))[line] == multiset(Of(t.lines, id))[line] {
        OfCounts(lines, id, line);
        OfCounts(t.lines, id, line);
      }
    }
    forall i | 0 <= i < |lines| ensures lines[i].order in m {
      assert lines[i] in multiset(t.lines);
    }
  }

  lemma {:induction false} OfCounts(rows: seq<Row<StoredLine>>, id: string, line: StoredLine)
    ensures multiset(Of(rows, id))[line] == multiset(rows)[Row(id, line)]
  {
    if rows != [] {
      OfCounts(rows[..|rows| - 1], id, line);
      assert rows == rows[..|rows| - 1] + [rows[|rows| - 1]];
    }
  }
}
