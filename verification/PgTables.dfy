/** The three order tables and the SQL that reads and writes them, next to the map they stand for. */
module PgTables {
  import opened Wrappers

  datatype StoredLine = StoredLine(sku: string, warehouse: string, qty: int)

  datatype StoredEvent = StoredEvent(kind: string, detail: Option<string>, at: int)

  datatype StoredOrder = StoredOrder(
    id: string, customer: string, business: Option<string>, lines: seq<StoredLine>, amount: int, status: string,
    history: seq<StoredEvent>, createdAt: int)

  datatype OrderRow = OrderRow(
    id: string, customer: string, business: Option<string>, amount: int, status: string, createdAt: int)

  /** A row of a table that refers to an order. */
  datatype Row<T> = Row(order: string, value: T)

  datatype Numbered = Numbered(id: nat, event: StoredEvent)

  datatype Tables = Tables(orders: seq<OrderRow>, lines: seq<Row<StoredLine>>, events: seq<Row<Numbered>>, nextId: nat)

  const NOTHING := Tables([], [], [], 0)

  // ----- writing ----------------------------------------------------------------------------------------

  function Head(o: StoredOrder): OrderRow { OrderRow(o.id, o.customer, o.business, o.amount, o.status, o.createdAt) }

  /** PRIMARY KEY (id), CHECK (amount_cents > 0) */
  predicate CanInsert(t: Tables, row: OrderRow) {
    row.amount > 0 && forall i :: 0 <= i < |t.orders| ==> t.orders[i].id != row.id
  }

  /** PRIMARY KEY (order_id, sku, warehouse_id), CHECK (qty > 0) */
  predicate CanInsertLine(rows: seq<Row<StoredLine>>, id: string, line: StoredLine) {
    && line.qty > 0
    && forall i :: 0 <= i < |rows| ==>
         !(rows[i].order == id && rows[i].value.sku == line.sku && rows[i].value.warehouse == line.warehouse)
  }

  function InsertLines(rows: seq<Row<StoredLine>>, id: string, lines: seq<StoredLine>): Option<seq<Row<StoredLine>>> {
    if lines == [] then Some(rows)
    else
      match InsertLines(rows, id, lines[..|lines| - 1])
      case None => None
      case Some(before) =>
        var line := lines[|lines| - 1];
        if CanInsertLine(before, id, line) then Some(before + [Row(id, line)]) else None
  }

  /** The transaction of `create`; `None` when a constraint turns it down. */
  function Insert(t: Tables, o: StoredOrder): Option<Tables> {
    if !CanInsert(t, Head(o)) then None
    else
      match InsertLines(t.lines, o.id, o.lines)
      case None => None
      case Some(lines) => Some(t.(orders := t.orders + [Head(o)], lines := lines))
  }

  /** `UPDATE orders SET status = … WHERE id = …` */
  function SetStatus(rows: seq<OrderRow>, id: string, status: string): (r: seq<OrderRow>)
    ensures |r| == |rows|
    ensures forall i :: 0 <= i < |rows| ==> r[i] == if rows[i].id == id then rows[i].(status := status) else rows[i]
  {
    if rows == [] then []
    else
      var last := rows[|rows| - 1];
      SetStatus(rows[..|rows| - 1], id, status) + [if last.id == id then last.(status := status) else last]
  }

  predicate Known(rows: seq<OrderRow>, id: string) { exists i :: 0 <= i < |rows| && rows[i].id == id }

  /** The transaction of `updateStatus`; `None` when it found no row to update. */
  function Update(t: Tables, id: string, status: string, event: StoredEvent): Option<Tables> {
    if !Known(t.orders, id) then None
    else
      var row := Row(id, Numbered(t.nextId, event));
      Some(Tables(SetStatus(t.orders, id, status), t.lines, t.events + [row], t.nextId + 1))
  }

  // ----- reading ----------------------------------------------------------------------------------------

  /** `WHERE order_id = …` */
  function Of<T>(rows: seq<Row<T>>, id: string): seq<T> {
    if rows == [] then []
    else Of(rows[..|rows| - 1], id) + (if rows[|rows| - 1].order == id then [rows[|rows| - 1].value] else [])
  }

  /** `WHERE order_id = ANY (…)` */
  function In<T>(rows: seq<Row<T>>, ids: seq<string>): seq<Row<T>> {
    if rows == [] then []
    else In(rows[..|rows| - 1], ids) + (if rows[|rows| - 1].order in ids then [rows[|rows| - 1]] else [])
  }

  /** `ORDER BY at ASC, id ASC` */
  predicate Before(a: Row<Numbered>, b: Row<Numbered>) {
    a.value.event.at < b.value.event.at || (a.value.event.at == b.value.event.at && a.value.id <= b.value.id)
  }

  function Place(rows: seq<Row<Numbered>>, row: Row<Numbered>): seq<Row<Numbered>> {
    if rows == [] || Before(rows[|rows| - 1], row) then rows + [row]
    else Place(rows[..|rows| - 1], row) + [rows[|rows| - 1]]
  }

  function Ordered(rows: seq<Row<Numbered>>): seq<Row<Numbered>> {
    if rows == [] then [] else Place(Ordered(rows[..|rows| - 1]), rows[|rows| - 1])
  }

  function Events(rows: seq<Numbered>): seq<StoredEvent> {
    if rows == [] then [] else Events(rows[..|rows| - 1]) + [rows[|rows| - 1].event]
  }

  /** `toOrder` */
  function ToOrder(row: OrderRow, lines: seq<StoredLine>, history: seq<StoredEvent>): StoredOrder {
    StoredOrder(row.id, row.customer, row.business, lines, row.amount, row.status, history, row.createdAt)
  }

  /** `SELECT * FROM orders WHERE id = …`, in scope */
  function Find(rows: seq<OrderRow>, id: string, scope: Scope): Option<OrderRow> {
    if rows == [] then None
    else if rows[0].id == id && Visible(rows[0].business, scope) then Some(rows[0])
    else Find(rows[1..], id, scope)
  }

  /** What reading one order gives. */
  function Hydrated(t: Tables, row: OrderRow): StoredOrder {
    ToOrder(row, Of(t.lines, row.id), Events(Of(Ordered(t.events), row.id)))
  }

  /** The three views a caller may ask for: any order, one business's, or those of nobody's. */
  datatype Scope = Anyone | Only(business: Option<string>)

  predicate Visible(business: Option<string>, scope: Scope) { scope.Only? ==> business == scope.business }

  predicate IsTerminalText(status: string) { status == "CONFIRMED" || status == "CANCELLED" || status == "FAILED" }

  /** The conditions the queries put on a row. */
  datatype Where = InScope(scope: Scope) | NotTerminal

  predicate Meets(business: Option<string>, status: string, where: Where) {
    match where
    case InScope(scope) => Visible(business, scope)
    case NotTerminal => !IsTerminalText(status)
  }

  /** `SELECT * FROM orders WHERE …` */
  function Select(rows: seq<OrderRow>, where: Where): seq<OrderRow> {
    if rows == [] then []
    else
      var last := rows[|rows| - 1];
      Select(rows[..|rows| - 1], where) + (if Meets(last.business, last.status, where) then [last] else [])
  }

  function PlaceOrder(rows: seq<OrderRow>, row: OrderRow): seq<OrderRow> {
    if rows == [] || rows[|rows| - 1].createdAt <= row.createdAt then rows + [row]
    else PlaceOrder(rows[..|rows| - 1], row) + [rows[|rows| - 1]]
  }

  /** `ORDER BY created_at ASC` */
  function Oldest(rows: seq<OrderRow>): seq<OrderRow> {
    if rows == [] then [] else PlaceOrder(Oldest(rows[..|rows| - 1]), rows[|rows| - 1])
  }

  // ----- the map the tables stand for -----------------------------------------------------------------------

  type Memory = map<string, StoredOrder>

  function MemoryUpdate(m: Memory, id: string, status: string, event: StoredEvent): Option<Memory> {
    if id in m then Some(m[id := m[id].(status := status, history := m[id].history + [event])]) else None
  }

  function MemoryGet(m: Memory, id: string, scope: Scope): Option<StoredOrder> {
    if id !in m then None
    else if scope.Only? && m[id].business != scope.business then None
    else Some(m[id])
  }

  /** Whether `all` lists an order under each view, and `nonTerminal`. */
  predicate Listed(o: StoredOrder, where: Where) {
    match where
    case InScope(Anyone) => true
    case InScope(Only(business)) => o.business == business
    case NotTerminal => o.status !in {"CONFIRMED", "CANCELLED", "FAILED"}
  }

  function MemoryIds(m: Memory, where: Where): set<string> { set id | id in m && Listed(m[id], where) }
}
