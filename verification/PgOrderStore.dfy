/** `PgOrderStore`: writes that happen whole or not at all, and reads that gather the rows of many orders at once. */
module PgOrderStore {
  import opened Wrappers
  import opened PgTables
  import opened PgRefinement

  /** The rows gathered under `id`, none if there were none. */
  function At<T>(byOrder: map<string, seq<T>>, id: string): seq<T> {
    if id in byOrder then byOrder[id] else []
  }

  class PgOrderStore {
    var tables: Tables

    constructor ()
      ensures tables == NOTHING
    {
      tables := NOTHING;
    }

    /** BEGIN, the inserts, and COMMIT; or ROLLBACK as soon as one of them is refused. */
    method Create(order: StoredOrder) returns (ok: bool)
      modifies this
      ensures tables == DoTables(old(tables), Command.Create(order))
      ensures ok <==> Insert(old(tables), order).Some?
    {
      var begun := tables;
      var row := Head(order);
      if !CanInsert(tables, row) { return false; }
      tables := tables.(orders := tables.orders + [row]);
      for i := 0 to |order.lines|
        invariant tables.orders == begun.orders + [row]
        invariant tables.events == begun.events && tables.nextId == begun.nextId
        invariant InsertLines(begun.lines, order.id, order.lines[..i]) == Some(tables.lines)
      {
        assert order.lines[..i + 1][..i] == order.lines[..i];
        var line := order.lines[i];
        if !CanInsertLine(tables.lines, order.id, line) {
          RefusedLine(begun.lines, order.id, order.lines, i + 1);
          tables := begun;
          return false;
        }
        tables := tables.(lines := tables.lines + [Row(order.id, line)]);
      }
      assert order.lines[..|order.lines|] == order.lines;
      return true;
    }

    method UpdateStatus(id: string, status: string, event: StoredEvent) returns (ok: bool)
      modifies this
      ensures tables == DoTables(old(tables), Command.UpdateStatus(id, status, event))
      ensures ok <==> Update(old(tables), id, status, event).Some?
    {
      var begun := tables;
      tables := tables.(orders := SetStatus(tables.orders, id, status));
      if !Known(begun.orders, id) {
        tables := begun;
        return false;
      }
      var row := Row(id, Numbered(tables.nextId, event));
      tables := tables.(events := tables.events + [row], nextId := tables.nextId + 1);
      return true;
    }

    /** The loop of `linesFor` and of `eventsFor`: rows are gathered by order in the order they came. */
    method Gather<T>(rows: seq<Row<T>>) returns (byOrder: map<string, seq<T>>)
      ensures forall id :: At(byOrder, id) == Of(rows, id)
    {
      byOrder := map[];
      for i := 0 to |rows|
        invariant forall id :: At(byOrder, id) == Of(rows[..i], id)
      {
        assert rows[..i + 1][..i] == rows[..i];
        var row := rows[i];
        var list := if row.order in byOrder then byOrder[row.order] else [];
        byOrder := byOrder[row.order := list + [row.value]];
      }
      assert rows[..|rows|] == rows;
    }

    method LinesFor(ids: seq<string>) returns (byOrder: map<string, seq<StoredLine>>)
      ensures forall id <- ids :: At(byOrder, id) == Of(tables.lines, id)
    {
      byOrder := Gather(In(tables.lines, ids));
      forall id | id in ids ensures At(byOrder, id) == Of(tables.lines, id) { OfIn(tables.lines, ids, id); }
    }

    method EventsFor(ids: seq<string>) returns (byOrder: map<string, seq<Numbered>>)
      ensures forall id <- ids :: At(byOrder, id) == Of(Ordered(tables.events), id)
    {
      byOrder := Gather(Ordered(In(tables.events, ids)));
      forall id | id in ids ensures At(byOrder, id) == Of(Ordered(tables.events), id) {
        SortCommutes(tables.events, ids);
        OfIn(Ordered(tables.events), ids, id);
      }
    }

    /** Two queries for all the orders give each of them what reading it alone would. */
    method HydrateAll(rows: seq<OrderRow>) returns (orders: seq<StoredOrder>)
      ensures |orders| == |rows| && forall i :: 0 <= i < |rows| ==> orders[i] == Hydrated(tables, rows[i])
    {
      var ids := seq(|rows|, i requires 0 <= i < |rows| => rows[i].id);
      orders := [];
      if |ids| == 0 { return; }
      var lines := LinesFor(ids);
      var history := EventsFor(ids);
      for i := 0 to |rows|
        invariant |orders| == i && forall j :: 0 <= j < i ==> orders[j] == Hydrated(tables, rows[j])
      {
        assert ids[i] in ids;
        orders := orders + [ToOrder(rows[i], At(lines, rows[i].id), Events(At(history, rows[i].id)))];
      }
    }

    method Get(id: string, scope: Scope) returns (order: Option<StoredOrder>)
      ensures order.Some? <==> Find(tables.orders, id, scope).Some?
      ensures order.Some? ==> order.value == Hydrated(tables, Find(tables.orders, id, scope).value)
      ensures forall m: Memory {:trigger Stands(tables, m)} :: Stands(tables, m) ==>
        (order.Some? <==> id in m && (scope == Anyone || m[id].business == scope.business))
    {
      forall m: Memory | Stands(tables, m)
        ensures Find(tables.orders, id, scope).Some?
          <==> id in m && (scope == Anyone || m[id].business == scope.business)
      {
        GetRefines(tables, m, id, scope);
      }
      var found := Find(tables.orders, id, scope);
      match found
      case None => order := None;
      case Some(row) =>
        FoundId(tables.orders, id, scope);
        assert id in [id];
        var lines := LinesFor([id]);
        var history := EventsFor([id]);
        order := Some(ToOrder(row, At(lines, id), Events(At(history, id))));
    }

    /** `all(businessId)` and `nonTerminal()`. For a store that stands for the map `m`, they answer as
        the map does. */
    method Query(where: Where, ghost m: Memory) returns (orders: seq<StoredOrder>)
      requires Stands(tables, m)
      ensures Answers(orders, m, where)
    {
      var rows := Oldest(Select(tables.orders, where));
      orders := HydrateAll(rows);
      QueryAnswers(tables, m, where, rows, orders);
    }
  }

  ghost predicate Lists(orders: seq<StoredOrder>, id: string) { exists i :: 0 <= i < |orders| && orders[i].id == id }

  /** `orders` are the orders of `m` that meet the condition, once each and oldest first; each is the map's own, lines
      in any order, exactly when its timestamps never ran backwards. */
  ghost predicate Answers(orders: seq<StoredOrder>, m: Memory, where: Where) {
    && (forall id :: Lists(orders, id) <==> id in m && Listed(m[id], where))
    && (forall i, j :: 0 <= i < j < |orders| ==>
         orders[i].id != orders[j].id && orders[i].createdAt <= orders[j].createdAt)
    && (forall i :: 0 <= i < |orders| ==> orders[i].id in m)
    && (forall i :: 0 <= i < |orders| ==> (Same(orders[i], m[orders[i].id]) <==> InOrder(m[orders[i].id].history)))
  }

  lemma QueryAnswers(t: Tables, m: Memory, where: Where, rows: seq<OrderRow>, orders: seq<StoredOrder>)
    requires Stands(t, m) && rows == Oldest(Select(t.orders, where))
    requires |orders| == |rows| && forall i :: 0 <= i < |rows| ==> orders[i] == Hydrated(t, rows[i])
    ensures Answers(orders, m, where)
  {
    QueryRefines(t, m, where);
    forall i | 0 <= i < |orders|
      ensures orders[i].id in m && (Same(orders[i], m[orders[i].id]) <==> InOrder(m[orders[i].id].history))
    {
      assert rows[i] in rows;
    }
    forall id ensures Known(rows, id) <==> Lists(orders, id) { SameIds(rows, orders, id); }
    forall i, j | 0 <= i < j < |orders|
      ensures orders[i].id != orders[j].id && orders[i].createdAt <= orders[j].createdAt
    {
      assert rows[i].id != rows[j].id && rows[i].createdAt <= rows[j].createdAt;
    }
  }

  lemma SameIds(rows: seq<OrderRow>, orders: seq<StoredOrder>, id: string)
    requires |orders| == |rows| && forall i :: 0 <= i < |rows| ==> orders[i].id == rows[i].id
    ensures Known(rows, id) <==> Lists(orders, id)
  {
    if Known(rows, id) {
      var i :| 0 <= i < |rows| && rows[i].id == id;
      assert orders[i].id == id;
    }
  }

  lemma {:induction false} RefusedLine(rows: seq<Row<StoredLine>>, id: string, lines: seq<StoredLine>, n: nat)
    requires n <= |lines| && InsertLines(rows, id, lines[..n]) == None
    ensures InsertLines(rows, id, lines) == None
    decreases |lines| - n
  {
    if n < |lines| {
      assert lines[..n + 1][..n] == lines[..n];
      RefusedLine(rows, id, lines, n + 1);
    } else {
      assert lines[..n] == lines;
    }
  }

  lemma {:induction false} FoundId(rows: seq<OrderRow>, id: string, scope: Scope)
    requires Find(rows, id, scope).Some?
    ensures Find(rows, id, scope).value.id == id
  {
    if rows[0].id != id || !Visible(rows[0].business, scope) { FoundId(rows[1..], id, scope); }
  }
}
