/** The orders table and its repository: internal/data/order.go. Times are integers. */
module Orders {

  datatype Option<+T> = None | Some(value: T)

  /** biz.Order; `instanceId` is 0 when there is none. */
  datatype Order = Order(
    id: int, userId: string, productId: int, reqId: int, amount: int, instanceId: int,
    status: string, createdAt: int, paidAt: Option<int>, completedAt: Option<int>)

  /** orderPO, a row of `orders`. */
  datatype Row = Row(
    orderId: int, userId: string, productId: int, reqId: int, amount: int, instanceId: Option<int>,
    status: string, createdAt: int, paidAt: Option<int>, completedAt: Option<int>)

  /** Rows by primary key. */
  type Table = map<int, Row>

  /** The row an order is stored as; the database fills in the default for an empty status. */
  function ToRow(o: Order): Row {
    Row(o.id, o.userId, o.productId, o.reqId, o.amount, if o.instanceId != 0 then Some(o.instanceId) else None,
        if o.status != "" then o.status else "PENDING", o.createdAt, o.paidAt, o.completedAt)
  }

  function FromRow(r: Row): Order {
    Order(r.orderId, r.userId, r.productId, r.reqId, r.amount, if r.instanceId.Some? then r.instanceId.value else 0,
          r.status, r.createdAt, r.paidAt, r.completedAt)
  }

  /** Storing an order and reading it back loses nothing unless its status is empty; a row survives the
      way back unless it holds the instance id 0, which is written as NULL, or an empty status. */
  lemma RowRoundTrip(o: Order, r: Row)
    ensures FromRow(ToRow(o)) == o <==> o.status != ""
    ensures ToRow(FromRow(r)) == r <==> r.instanceId != Some(0) && r.status != ""
    ensures o.status == "" ==> ToRow(o).status == "PENDING"
    ensures ToRow(o).instanceId.None? <==> o.instanceId == 0
  {}

  /** The two unique constraints. The database reports either of them in the same way. */
  predicate Clashes(t: Table, r: Row) {
    r.orderId in t || KeyTaken(t, r.productId, r.reqId)
  }

  predicate KeyTaken(t: Table, productId: int, reqId: int) {
    exists k :: k in t && HasKey(t[k], productId, reqId)
  }

  predicate HasKey(r: Row, productId: int, reqId: int) {
    r.productId == productId && r.reqId == reqId
  }

  /** Rows sit under their primary key and no two share (product_id, req_id). */
  ghost predicate WellKeyed(t: Table) {
    && (forall k :: k in t ==> t[k].orderId == k)
    && (forall j, k :: j in t && k in t && HasKey(t[j], t[k].productId, t[k].reqId) ==> j == k)
  }

  /** What a write may meet besides the constraints: nothing, an error before the row is written,
      or an error reported after it was. */
  datatype Fault = NoFault | Refused | Unacknowledged

  datatype Reply = Stored | Duplicate | Failed

  function InsertReply(t: Table, r: Row, fault: Fault): Reply {
    if fault == Refused then Failed
    else if Clashes(t, r) then Duplicate
    else if fault == Unacknowledged then Failed
    else Stored
  }

  function Inserted(t: Table, r: Row, fault: Fault): Table {
    if fault == Refused || Clashes(t, r) then t else t[r.orderId := r]
  }

  /** No row has the order id, and none the product and the key. */
  ghost predicate Fits(t: Table, orderId: int, productId: int, key: int) {
    orderId !in t && forall j :: j in t ==> t[j].productId != productId || t[j].reqId != key
  }

  /** An insert that reaches the database stores the row exactly if no row has its order id and none its
      product and key; otherwise it meets a constraint. Other rows are left alone in any case. */
  lemma StoredIff(t: Table, r: Row, fault: Fault, k: int)
    ensures var fits := Fits(t, r.orderId, r.productId, r.reqId);
            && (InsertReply(t, r, fault) == Stored <==> fits && fault == NoFault)
            && (InsertReply(t, r, fault) == Duplicate <==> !fits && fault != Refused)
            && (k in Inserted(t, r, fault) <==> k in t || (fits && fault != Refused && k == r.orderId))
    ensures k in t ==> Inserted(t, r, fault)[k] == t[k]
    ensures k in Inserted(t, r, fault) && k !in t ==> Inserted(t, r, fault)[k] == r
  {
    if KeyTaken(t, r.productId, r.reqId) {
      var j :| j in t && HasKey(t[j], r.productId, r.reqId);
      assert t[j].productId == r.productId && t[j].reqId == r.reqId;
    }
    forall j | j in t && t[j].productId == r.productId && t[j].reqId == r.reqId ensures KeyTaken(t, r.productId, r.reqId) {
      assert HasKey(t[j], r.productId, r.reqId);
    }
  }

  lemma KeySymmetric(a: Row, b: Row)
    ensures HasKey(a, b.productId, b.reqId) <==> HasKey(b, a.productId, a.reqId)
  {}

  lemma InsertKeepsKeys(t: Table, r: Row, fault: Fault)
    requires WellKeyed(t)
    ensures WellKeyed(Inserted(t, r, fault))
  {
    if !Clashes(t, r) {
      forall k | k in t ensures !HasKey(t[k], r.productId, r.reqId) && !HasKey(r, t[k].productId, t[k].reqId) {
        KeySymmetric(r, t[k]);
      }
    }
  }

  /** `UpdateStatus` on one row: the timestamp of the status reached is set, the other stays. */
  function WithStatus(r: Row, status: string, now: int): Row {
    var r' := r.(status := status);
    if status == "PAID" then r'.(paidAt := Some(now))
    else if status == "COMPLETED" then r'.(completedAt := Some(now))
    else r'
  }

  function Updated(t: Table, orderId: int, status: string, now: int): Table {
    if orderId in t then t[orderId := WithStatus(t[orderId], status, now)] else t
  }

  /** Afterwards the row has the status passed, the moment in the timestamp of that status if it has one, and
      everything else as before; so have all other rows. */
  lemma StatusReached(t: Table, orderId: int, status: string, now: int)
    ensures var u := Updated(t, orderId, status, now);
            && u.Keys == t.Keys
            && (forall k :: k in t && k != orderId ==> u[k] == t[k])
            && (orderId in t ==>
                  && u[orderId].status == status
                  && u[orderId].paidAt == (if status == "PAID" then Some(now) else t[orderId].paidAt)
                  && u[orderId].completedAt == (if status == "COMPLETED" then Some(now) else t[orderId].completedAt)
                  && u[orderId].(status := t[orderId].status, paidAt := t[orderId].paidAt,
                                 completedAt := t[orderId].completedAt) == t[orderId])
  {}

  class OrderRepo {
    var rows: Table

    constructor ()
      ensures rows == map[] && WellKeyed(rows)
    {
      rows := map[];
    }

    method Create(order: Order, fault: Fault) returns (reply: Reply)
      requires WellKeyed(rows)
      modifies this
      ensures WellKeyed(rows)
      ensures rows == Inserted(old(rows), ToRow(order), fault)
      ensures reply == InsertReply(old(rows), ToRow(order), fault)
    {
      InsertKeepsKeys(rows, ToRow(order), fault);
      var po := Row(order.id, order.userId, order.productId, order.reqId, order.amount, None,
                    order.status, order.createdAt, None, None);
      if order.instanceId != 0 {
        po := po.(instanceId := Some(order.instanceId));
      }
      if order.paidAt.Some? {
        po := po.(paidAt := Some(order.paidAt.value));
      }
      if order.completedAt.Some? {
        po := po.(completedAt := Some(order.completedAt.value));
      }
      if po.status == "" {
        po := po.(status := "PENDING");
      }
      if fault == Refused {
        return Failed;
      }
      if Clashes(rows, po) {
        return Duplicate;
      }
      rows := rows[po.orderId := po];
      reply := if fault == Unacknowledged then Failed else Stored;
    }

    method GetByID(orderId: int, fault: bool) returns (order: Option<Order>)
      ensures order == if fault || orderId !in rows then None else Some(FromRow(rows[orderId]))
    {
      if fault || orderId !in rows {
        return None;
      }
      var po := rows[orderId];
      var o := Order(po.orderId, po.userId, po.productId, po.reqId, po.amount, 0, po.status, po.createdAt, None, None);
      if po.instanceId.Some? {
        o := o.(instanceId := po.instanceId.value);
      }
      if po.paidAt.Some? {
        o := o.(paidAt := Some(po.paidAt.value));
      }
      if po.completedAt.Some? {
        o := o.(completedAt := Some(po.completedAt.value));
      }
      order := Some(o);
    }

    /** Updating an order that does not exist changes no row and is no error. */
    method UpdateStatus(orderId: int, status: string, now: int, fault: Fault) returns (ok: bool)
      modifies this
      ensures ok == (fault == NoFault)
      ensures rows == if fault == Refused then old(rows) else Updated(old(rows), orderId, status, now)
    {
      if fault != Refused && orderId in rows {
        var po := rows[orderId].(status := status);
        if status == "PAID" {
          po := po.(paidAt := Some(now));
        }
        if status == "COMPLETED" {
          po := po.(completedAt := Some(now));
        }
        rows := rows[orderId := po];
      }
      ok := fault == NoFault;
    }
  }
}
