/** Booking an order: `CreateOrder` and `PurchaseProduct` of internal/biz/order.go and
    `HandleSeckillOrder` of internal/service/seckill.go. */
module Booking {
  import opened Int64
  import opened IdGenerators
  import opened Orders
  import opened StreamHash

  datatype ProductSpec = ProductSpec(cpu: int, memory: int, gpu: int, image: string, configJson: string)

  datatype Product = Product(id: int, name: string, description: string, status: string, price: int, specId: int,
                             spec: Option<ProductSpec>)

  /** The answer of the product query. */
  datatype Lookup = Found(product: Product) | NoRow | QueryFailed

  datatype Error =
    | ProductNotFound | ProductQuery | ProductDisabled | SpecMissing
    | UniqueViolation | Store | Publish

  datatype Result<+T> = Ok(value: T) | Err(error: Error)

  /** The message for the resource domain. */
  datatype Event = Event(instanceId: int, userId: string, name: string, spec: ProductSpec)

  /** What the world answers while one order is booked: the product query, the clock at each of its
      four readings, and the fate of the insert and of the publish. A publish may be refused, or
      reach the broker and still be reported as failed. */
  datatype World = World(lookup: Lookup, reqMs: int, orderMs: int, instanceMs: int, nowMs: int,
                         insert: Fault, publish: Fault)

  /** `CreateOrder` invents a key for the callers that pass none. */
  function ReqKey(reqId: int, w: World, hash: Word): int {
    if reqId == 0 then OrderId(w.reqMs, hash) else reqId
  }

  /** Whoever books has paid already. */
  function NewOrder(id: int, userId: string, productId: int, key: int, price: int, instanceId: int, nowMs: int): Order {
    Order(id, userId, productId, key, price, instanceId, "PAID", nowMs, Some(nowMs), None)
  }

  /** What the answer of the product query makes of an order under these ids. */
  function Prepared(l: Lookup, id: int, userId: string, productId: int, key: int, instanceId: int, nowMs: int)
    : Result<Order>
  {
    match l
    case NoRow => Err(ProductNotFound)
    case QueryFailed => Err(ProductQuery)
    case Found(p) =>
      if p.status != "ENABLED" then Err(ProductDisabled)
      else if p.spec.None? then Err(SpecMissing)
      else Ok(NewOrder(id, userId, productId, key, p.price, instanceId, nowMs))
  }

  /** The order `CreateOrder` is about to store, or why it stops before the table. */
  function Draft(productId: int, userId: string, reqId: int, w: World, hash: Word): Result<Order> {
    Prepared(w.lookup, OrderId(w.orderMs, hash), userId, productId, ReqKey(reqId, w, hash), InstanceId(w.instanceMs, hash),
             w.nowMs)
  }

  /** The event announcing a drafted order. */
  function Announcement(o: Order, p: Product): Event
    requires p.spec.Some?
  {
    Event(o.instanceId, o.userId, p.name, p.spec.value)
  }

  function SentBy(events: seq<Event>, e: Event, fault: Fault): seq<Event> {
    if fault == Refused then events else events + [e]
  }

  /** The whole of `CreateOrder`: table and events afterwards, and the result. */
  datatype Outcome = Outcome(table: Table, events: seq<Event>, result: Result<(int, int)>)

  /** The insert and, if it is known to have stored the row, the publish. */
  function Placed(t: Table, events: seq<Event>, o: Order, p: Product, insert: Fault, publish: Fault): Outcome
    requires p.spec.Some?
  {
    var t' := Inserted(t, ToRow(o), insert);
    match InsertReply(t, ToRow(o), insert)
    case Duplicate => Outcome(t', events, Err(UniqueViolation))
    case Failed => Outcome(t', events, Err(Store))
    case Stored =>
      Outcome(t', SentBy(events, Announcement(o, p), publish),
              if publish == NoFault then Ok((o.id, o.instanceId)) else Err(Error.Publish))
  }

  function Booked(t: Table, events: seq<Event>, productId: int, userId: string, reqId: int, w: World,
                  hash: Word): Outcome {
    match Draft(productId, userId, reqId, w, hash)
    case Err(e) => Outcome(t, events, Err(e))
    case Ok(o) => Placed(t, events, o, w.lookup.product, w.insert, w.publish)
  }

  /** `isUniqueViolationError`, on error kinds. */
  predicate IsUniqueViolation(e: Error) {
    e == UniqueViolation
  }

  /** Whether `HandleSeckillOrder` returns nil, which makes the caller acknowledge. */
  predicate Acknowledges(r: Result<(int, int)>) {
    r.Ok? || IsUniqueViolation(r.error)
  }

  // ---------------------------------------------------------------------------------------------
  // What a booking does, by the answers it gets
  // ---------------------------------------------------------------------------------------------

  /** The product is on sale and complete. */
  predicate OnSale(l: Lookup) {
    l.Found? && l.product.status == "ENABLED" && l.product.spec.Some?
  }

  /** An order is prepared exactly if the product is on sale, and carries its price; otherwise the reason is told. */
  lemma PreparedIs(l: Lookup, id: int, userId: string, productId: int, key: int, instanceId: int, nowMs: int)
    ensures var r := Prepared(l, id, userId, productId, key, instanceId, nowMs);
            && (r.Ok? <==> OnSale(l))
            && (r.Ok? ==> r.value.amount == l.product.price && r.value.id == id && r.value.reqId == key)
            && (r == Err(ProductNotFound) <==> l.NoRow?) && (r == Err(ProductQuery) <==> l.QueryFailed?)
            && (r == Err(ProductDisabled) <==> l.Found? && l.product.status != "ENABLED")
            && (r == Err(SpecMissing) <==> l.Found? && l.product.status == "ENABLED" && l.product.spec.None?)
  {}

  /** The row of a new order, column by column. */
  lemma NewOrderIs(id: int, userId: string, productId: int, key: int, price: int, instanceId: int, nowMs: int)
    ensures var r := ToRow(NewOrder(id, userId, productId, key, price, instanceId, nowMs));
            && r.orderId == id && r.userId == userId && r.productId == productId && r.reqId == key && r.amount == price
            && r.instanceId == (if instanceId == 0 then None else Some(instanceId))
            && r.status == "PAID" && r.createdAt == nowMs && r.paidAt == Some(nowMs) && r.completedAt == None
  {}

  /** The key passed is kept, and without one an order id is drawn for it. */
  lemma KeyIs(reqId: int, w: World, hash: Word)
    ensures ReqKey(reqId, w, hash) == if reqId == 0 then OrderId(w.reqMs, hash) else reqId
  {}

  lemma DraftIs(productId: int, userId: string, reqId: int, w: World, hash: Word)
    requires Draft(productId, userId, reqId, w, hash).Ok?
    ensures w.lookup.Found?
    ensures Draft(productId, userId, reqId, w, hash)
         == Ok(NewOrder(OrderId(w.orderMs, hash), userId, productId, ReqKey(reqId, w, hash), w.lookup.product.price,
                        InstanceId(w.instanceMs, hash), w.nowMs))
  {}

  lemma BookedInserts(t: Table, events: seq<Event>, productId: int, userId: string, reqId: int, w: World, hash: Word)
    ensures var d := Draft(productId, userId, reqId, w, hash);
            Booked(t, events, productId, userId, reqId, w, hash).table ==
            if d.Ok? then Inserted(t, ToRow(d.value), w.insert) else t
  {}

  /** A row that a booking adds: paid at the moment it is created, for the user, the product and the key
      passed, at the price and under the ids of that moment. No other row changes. */
  lemma NewRowIs(t: Table, events: seq<Event>, productId: int, userId: string, reqId: int, w: World, hash: Word, k: int)
    requires k in Booked(t, events, productId, userId, reqId, w, hash).table && k !in t
    ensures w.lookup.Found? && k == OrderId(w.orderMs, hash)
    ensures var r := Booked(t, events, productId, userId, reqId, w, hash).table[k];
            && r.orderId == k && r.userId == userId && r.productId == productId && r.amount == w.lookup.product.price
            && r.reqId == (if reqId == 0 then OrderId(w.reqMs, hash) else reqId)
            && r.instanceId == (if InstanceId(w.instanceMs, hash) == 0 then None else Some(InstanceId(w.instanceMs, hash)))
            && r.status == "PAID" && r.createdAt == w.nowMs && r.paidAt == Some(w.nowMs) && r.completedAt == None
    ensures Booked(t, events, productId, userId, reqId, w, hash).table
         == t[k := Booked(t, events, productId, userId, reqId, w, hash).table[k]]
  {
    BookedInserts(t, events, productId, userId, reqId, w, hash);
    DraftIs(productId, userId, reqId, w, hash);
    KeyIs(reqId, w, hash);
    NewOrderIs(OrderId(w.orderMs, hash), userId, productId, ReqKey(reqId, w, hash), w.lookup.product.price,
               InstanceId(w.instanceMs, hash), w.nowMs);
  }

  /** Before the table: the reason a booking is refused for, without effect. */
  lemma RefusedEarly(t: Table, events: seq<Event>, productId: int, userId: string, reqId: int, w: World, hash: Word)
    requires !OnSale(w.lookup)
    ensures Booked(t, events, productId, userId, reqId, w, hash)
         == Outcome(t, events, Err(if w.lookup.NoRow? then ProductNotFound else if w.lookup.QueryFailed? then ProductQuery
                                   else if w.lookup.product.status != "ENABLED" then ProductDisabled else SpecMissing))
  {}

  /** At the table and after it: a constraint is told from a failure, the event goes out only for a row that
      is known to be stored, and success takes both. */
  lemma PlacedIs(t: Table, events: seq<Event>, o: Order, p: Product, insert: Fault, publish: Fault)
    requires p.spec.Some?
    ensures var b, fits := Placed(t, events, o, p, insert, publish), Fits(t, o.id, o.productId, o.reqId);
            && b.table == (if fits && insert != Refused then t[o.id := ToRow(o)] else t)
            && b.events == (if fits && insert == NoFault && publish != Refused
                            then events + [Event(o.instanceId, o.userId, p.name, p.spec.value)] else events)
            && (b.result == Ok((o.id, o.instanceId)) <==> fits && insert == NoFault && publish == NoFault)
            && (b.result == Err(UniqueViolation) <==> !fits && insert != Refused)
            && (b.result == Err(Error.Publish) <==> fits && insert == NoFault && publish != NoFault)
            && (b.result == Err(Store) <==> insert == Refused || (fits && insert == Unacknowledged))
  {
    StoredIff(t, ToRow(o), insert, o.id);
  }

  /** The same of a whole booking. */
  lemma BookingEnds(t: Table, events: seq<Event>, productId: int, userId: string, reqId: int, w: World, hash: Word)
    requires OnSale(w.lookup)
    ensures var b := Booked(t, events, productId, userId, reqId, w, hash);
            var id, instance, product := OrderId(w.orderMs, hash), InstanceId(w.instanceMs, hash), w.lookup.product;
            var fits := Fits(t, id, productId, if reqId == 0 then OrderId(w.reqMs, hash) else reqId);
            && (id in b.table && b.table != t <==> fits && w.insert != Refused)
            && b.events == (if fits && w.insert == NoFault && w.publish != Refused
                            then events + [Event(instance, userId, product.name, product.spec.value)] else events)
            && (b.result == Ok((id, instance)) <==> fits && w.insert == NoFault && w.publish == NoFault)
            && (b.result == Err(UniqueViolation) <==> !fits && w.insert != Refused)
            && (b.result == Err(Error.Publish) <==> fits && w.insert == NoFault && w.publish != NoFault)
            && (b.result == Err(Store) <==> w.insert == Refused || (fits && w.insert == Unacknowledged))
  {
    DraftIs(productId, userId, reqId, w, hash);
    KeyIs(reqId, w, hash);
    PlacedIs(t, events, Draft(productId, userId, reqId, w, hash).value, w.lookup.product, w.insert, w.publish);
  }

  /** The caller acknowledges on success and on a unique violation, and on nothing else. */
  lemma AcknowledgesIff(r: Result<(int, int)>)
    ensures Acknowledges(r) <==> match r case Ok(_) => true case Err(e) => e == UniqueViolation
  {}

  class OrderUsecase {
    const repo: OrderRepo
    var events: seq<Event>

    constructor (repo: OrderRepo)
      ensures this.repo == repo && events == []
    {
      this.repo := repo;
      events := [];
    }

    method CreateOrder(productId: int, userId: string, reqId: int, w: World, hash: Word) returns (r: Result<(int, int)>)
      requires WellKeyed(repo.rows)
      modifies this, repo
      ensures WellKeyed(repo.rows)
      ensures Outcome(repo.rows, events, r) == Booked(old(repo.rows), old(events), productId, userId, reqId, w, hash)
    {
      var key := reqId;
      if key == 0 {
        key := OrderId(w.reqMs, hash);
      }
      if w.lookup.NoRow? {
        return Err(ProductNotFound);
      }
      if w.lookup.QueryFailed? {
        return Err(ProductQuery);
      }
      var product := w.lookup.product;
      if product.status != "ENABLED" {
        return Err(ProductDisabled);
      }
      if product.spec.None? {
        return Err(SpecMissing);
      }
      var orderId := OrderId(w.orderMs, hash);
      var instanceId := GenerateInstanceId(w.instanceMs, hash);
      var order := Order(orderId, userId, productId, key, product.price, instanceId, "PAID", w.nowMs, Some(w.nowMs), None);
      var reply := repo.Create(order, w.insert);
      if reply != Stored {
        return Err(if reply == Duplicate then UniqueViolation else Store);
      }
      var spec := product.spec.value;
      if w.publish != Refused {
        events := events + [Event(instanceId, userId, product.name, spec)];
      }
      if w.publish != NoFault {
        return Err(Publish);
      }
      r := Ok((orderId, instanceId));
    }

    method HandleSeckillOrder(productId: int, streamID: Id, uid: string, w: World, hash: Word) returns (ok: bool)
      requires WellKeyed(repo.rows)
      modifies this, repo
      ensures WellKeyed(repo.rows)
      ensures var b := Booked(old(repo.rows), old(events), productId, uid, Hash(streamID), w, hash);
              repo.rows == b.table && events == b.events && ok == Acknowledges(b.result)
    {
      var reqId := HashStreamID(streamID);
      var r := CreateOrder(productId, uid, reqId, w, hash);
      if r.Err? {
        if IsUniqueViolation(r.error) {
          return true;
        }
        return false;
      }
      ok := true;
    }

    /** An ordinary purchase answers with the order as the table holds it. */
    method PurchaseProduct(userId: string, productId: int, w: World, hash: Word, readFault: bool)
      returns (order: Option<Order>, instanceId: int)
      requires WellKeyed(repo.rows)
      modifies this, repo
      ensures WellKeyed(repo.rows)
      ensures userId == "" ==> order.None? && repo.rows == old(repo.rows) && events == old(events)
      ensures userId != "" ==>
                var b := Booked(old(repo.rows), old(events), productId, userId, 0, w, hash);
                repo.rows == b.table && events == b.events &&
                (order.Some? <==> b.result.Ok? && !readFault) &&
                (order.Some? ==> Ok(order.value) == Draft(productId, userId, 0, w, hash) &&
                                 instanceId == order.value.instanceId)
    {
      instanceId := 0;
      if userId == "" {
        return None, 0;
      }
      var r := CreateOrder(productId, userId, 0, w, hash);
      if r.Err? {
        return None, 0;
      }
      order := repo.GetByID(r.value.0, readFault);
      if order.None? {
        return None, 0;
      }
      instanceId := r.value.1;
    }
  }
}
