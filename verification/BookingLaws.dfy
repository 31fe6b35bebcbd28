/** What booking promises over several calls: a redelivered message, and the life of a row. */
module BookingLaws {
  import opened Int64
  import opened Bits
  import opened IdGenerators
  import opened Orders
  import opened Booking

  // ---------------------------------------------------------------------------------------------
  // The same request again
  // ---------------------------------------------------------------------------------------------

  /** Once the key of a request is stored, booking it again changes nothing, and the consumer is told
      that it is done exactly when the attempt gets as far as the constraint. */
  lemma RedeliveryIsSilent(t: Table, events: seq<Event>, productId: int, userId: string, key: int, w: World, hash: Word)
    requires key != 0 && KeyTaken(t, productId, key)
    ensures Booked(t, events, productId, userId, key, w, hash).table == t
    ensures Booked(t, events, productId, userId, key, w, hash).events == events
    ensures Acknowledges(Booked(t, events, productId, userId, key, w, hash).result)
      <==> Draft(productId, userId, key, w, hash).Ok? && w.insert != Refused
  {}

  /** After an attempt either nothing has changed or the key is stored. */
  lemma StoresOrNothing(t: Table, events: seq<Event>, productId: int, userId: string, key: int, w: World, hash: Word)
    requires key != 0
    ensures var b := Booked(t, events, productId, userId, key, w, hash);
            (b.table == t && b.events == events) ||
            (|b.table| == |t| + 1 && |b.events| <= |events| + 1 && KeyTaken(b.table, productId, key))
  {
    var d := Draft(productId, userId, key, w, hash);
    if d.Ok? && w.insert != Refused && !Clashes(t, ToRow(d.value)) {
      var row := ToRow(d.value);
      assert HasKey(t[row.orderId := row][row.orderId], productId, key);
    }
  }

  predicate Announces(e: Event, r: Row, w: World) {
    && e.instanceId == FromRow(r).instanceId && e.userId == r.userId
    && w.lookup.Found? && e.name == w.lookup.product.name && Some(e.spec) == w.lookup.product.spec
  }

  /** An attempt sends an event only for a row that it stored itself, with the instance and the user of
      that row and the name and specification of the product. */
  lemma EventAnnouncesRow(t: Table, events: seq<Event>, productId: int, userId: string, reqId: int, w: World,
                          hash: Word)
    ensures var b := Booked(t, events, productId, userId, reqId, w, hash);
            var k := OrderId(w.orderMs, hash);
            b.events == events ||
            (k !in t && k in b.table && exists e :: b.events == events + [e] && Announces(e, b.table[k], w))
  {
    var d := Draft(productId, userId, reqId, w, hash);
    if d.Ok? && InsertReply(t, ToRow(d.value), w.insert) == Stored && w.publish != Refused {
      RowRoundTrip(d.value, ToRow(d.value));
      var e := Announcement(d.value, w.lookup.product);
      assert Announces(e, ToRow(d.value), w);
    }
  }

  /** Table and events after a series of deliveries of one message. */
  function Delivered(t: Table, events: seq<Event>, productId: int, userId: string, key: int, ws: seq<World>, hash: Word)
    : (Table, seq<Event>)
  {
    if ws == [] then (t, events)
    else
      var (t', events') := Delivered(t, events, productId, userId, key, ws[..|ws| - 1], hash);
      var b := Booked(t', events', productId, userId, key, ws[|ws| - 1], hash);
      (b.table, b.events)
  }

  /** Any number of deliveries leaves what a single one of them would have left, or nothing at all. */
  lemma {:induction false} DeliveriesAreOne(t: Table, events: seq<Event>, productId: int, userId: string, key: int,
                                            ws: seq<World>, hash: Word)
    returns (one: Option<nat>)
    requires key != 0
    ensures one.None? ==> Delivered(t, events, productId, userId, key, ws, hash) == (t, events)
    ensures one.Some? ==>
              one.value < |ws| &&
              var b := Booked(t, events, productId, userId, key, ws[one.value], hash);
              Delivered(t, events, productId, userId, key, ws, hash) == (b.table, b.events) &&
              |b.table| == |t| + 1 && |b.events| <= |events| + 1 && KeyTaken(b.table, productId, key)
  {
    one := None;
    if ws != [] {
      var n := |ws| - 1;
      one := DeliveriesAreOne(t, events, productId, userId, key, ws[..n], hash);
      var (t', events') := Delivered(t, events, productId, userId, key, ws[..n], hash);
      if one.Some? {
        RedeliveryIsSilent(t', events', productId, userId, key, ws[n], hash);
      } else {
        StoresOrNothing(t, events, productId, userId, key, ws[n], hash);
        var b := Booked(t, events, productId, userId, key, ws[n], hash);
        if !(b.table == t && b.events == events) {
          one := Some(n);
        }
      }
    }
  }

  /** The consumer is told "done" only over a row with the key of the message, or over a foreign row that
      happens to hold the order id of this attempt. */
  lemma DoneMeansTaken(t: Table, events: seq<Event>, productId: int, userId: string, key: int, w: World, hash: Word)
    requires key != 0 && Acknowledges(Booked(t, events, productId, userId, key, w, hash).result)
    ensures KeyTaken(Booked(t, events, productId, userId, key, w, hash).table, productId, key) ||
            OrderId(w.orderMs, hash) in t
  {
    StoresOrNothing(t, events, productId, userId, key, w, hash);
  }

  /** Of two purchases in a row, made without a key by any two users, the second is stored as well exactly
      if it fits the table as it was, its order id is another, that is, the clock has moved or the user
      bits differ, and so is its invented key unless the products differ. */
  lemma PurchasesRepeatIff(t: Table, p: int, u: string, v: World, g: Word, q: int, x: string, w: World, h: Word)
    requires Draft(p, u, 0, v, g).Ok? && Draft(q, x, 0, w, h).Ok? && v.insert == NoFault && w.insert == NoFault
    requires !Clashes(t, ToRow(Draft(p, u, 0, v, g).value))
    ensures var once := Booked(t, [], p, u, 0, v, g);
            var twice := Booked(once.table, once.events, q, x, 0, w, h);
            |once.table| == |t| + 1 &&
            (|twice.table| == |t| + 2 <==>
             && !Clashes(t, ToRow(Draft(q, x, 0, w, h).value))
             && !(Stamp(v.orderMs) == Stamp(w.orderMs) && UserBits(g) == UserBits(h))
             && !(p == q && Stamp(v.reqMs) == Stamp(w.reqMs) && UserBits(g) == UserBits(h)))
  {
    var a, b := ToRow(Draft(p, u, 0, v, g).value), ToRow(Draft(q, x, 0, w, h).value);
    OrderIdsEqualIff(v.orderMs, g, w.orderMs, h);
    OrderIdsEqualIff(v.reqMs, g, w.reqMs, h);
    SecondInsert(t, a, b);
  }

  lemma SecondInsert(t: Table, a: Row, b: Row)
    requires !Clashes(t, a)
    ensures Clashes(t[a.orderId := a], b) <==>
            Clashes(t, b) || a.orderId == b.orderId || (a.productId == b.productId && a.reqId == b.reqId)
  {
    var t' := t[a.orderId := a];
    if KeyTaken(t, b.productId, b.reqId) {
      var k :| k in t && HasKey(t[k], b.productId, b.reqId);
      assert HasKey(t'[k], b.productId, b.reqId);
    }
    if HasKey(a, b.productId, b.reqId) {
      assert HasKey(t'[a.orderId], b.productId, b.reqId);
    }
  }

  // ---------------------------------------------------------------------------------------------
  // The life of a row
  // ---------------------------------------------------------------------------------------------

  /** The two operations that write the table. */
  datatype Op =
    | Book(productId: int, userId: string, reqId: int, w: World, hash: Word)
    | SetStatus(orderId: int, status: string, now: int, fault: Fault)

  function Applied(t: Table, op: Op): Table {
    match op
    case Book(productId, userId, reqId, w, hash) => Booked(t, [], productId, userId, reqId, w, hash).table
    case SetStatus(orderId, status, now, fault) => if fault == Refused then t else Updated(t, orderId, status, now)
  }

  function AfterAll(t: Table, ops: seq<Op>): Table {
    if ops == [] then t else Applied(AfterAll(t, ops[..|ops| - 1]), ops[|ops| - 1])
  }

  /** The columns an order is created with stay, and a timestamp once set is never cleared. */
  predicate Evolves(r: Row, s: Row) {
    && s.orderId == r.orderId && s.userId == r.userId && s.productId == r.productId && s.reqId == r.reqId
    && s.amount == r.amount && s.instanceId == r.instanceId && s.createdAt == r.createdAt
    && (r.paidAt.Some? ==> s.paidAt.Some?) && (r.completedAt.Some? ==> s.completedAt.Some?)
  }

  predicate Stamped(r: Row) {
    (r.status == "PAID" ==> r.paidAt.Some?) && (r.status == "COMPLETED" ==> r.completedAt.Some?)
  }

  /** The row goes back to a booking of an enabled product at the price of that moment. */
  predicate BornOf(op: Op, r: Row) {
    && op.Book?
    && Draft(op.productId, op.userId, op.reqId, op.w, op.hash).Ok?
    && Evolves(ToRow(Draft(op.productId, op.userId, op.reqId, op.w, op.hash).value), r)
  }

  lemma UpdatedEvolves(r: Row, status: string, now: int)
    ensures Evolves(r, WithStatus(r, status, now)) && Stamped(WithStatus(r, status, now))
  {}

  /** One operation loses no row, changes rows only in the allowed way, and adds only its own booking. */
  lemma StepEvolves(t: Table, op: Op, k: int)
    requires forall j :: j in t ==> Stamped(t[j])
    ensures k in t ==> k in Applied(t, op) && Evolves(t[k], Applied(t, op)[k])
    ensures k in Applied(t, op) ==> Stamped(Applied(t, op)[k])
    ensures k in Applied(t, op) && k !in t ==> BornOf(op, Applied(t, op)[k])
  {
    match op
    case Book(productId, userId, reqId, w, hash) =>
      BookEvolves(t, op, k);
    case SetStatus(orderId, status, now, fault) =>
      if k in t {
        UpdatedEvolves(t[k], status, now);
      }
  }

  lemma BookEvolves(t: Table, op: Op, k: int)
    requires op.Book?
    ensures k in t ==> k in Applied(t, op) && Applied(t, op)[k] == t[k]
    ensures k in Applied(t, op) && k !in t ==> BornOf(op, Applied(t, op)[k]) && Stamped(Applied(t, op)[k])
  {
    var d := Draft(op.productId, op.userId, op.reqId, op.w, op.hash);
    if d.Ok? {
      assert Stamped(ToRow(d.value)) && Evolves(ToRow(d.value), ToRow(d.value));
      assert Applied(t, op) == Inserted(t, ToRow(d.value), op.w.insert);
    }
  }

  lemma {:induction false} RunStamped(t: Table, ops: seq<Op>)
    requires forall j :: j in t ==> Stamped(t[j])
    ensures forall j :: j in AfterAll(t, ops) ==> Stamped(AfterAll(t, ops)[j])
  {
    if ops != [] {
      RunStamped(t, ops[..|ops| - 1]);
      var before, op := AfterAll(t, ops[..|ops| - 1]), ops[|ops| - 1];
      forall j | j in Applied(before, op) ensures Stamped(Applied(before, op)[j]) {
        StepEvolves(before, op, j);
      }
    }
  }

  lemma EvolvesOn(a: Row, b: Row, c: Row)
    requires Evolves(a, b) && Evolves(b, c)
    ensures Evolves(a, c)
  {}

  /** Over any run no row is lost, and each keeps what it was created with. */
  lemma {:induction false} RunEvolves(t: Table, ops: seq<Op>, k: int)
    requires forall j :: j in t ==> Stamped(t[j])
    requires k in t
    ensures k in AfterAll(t, ops) && Evolves(t[k], AfterAll(t, ops)[k])
  {
    if ops != [] {
      var before, op := AfterAll(t, ops[..|ops| - 1]), ops[|ops| - 1];
      RunEvolves(t, ops[..|ops| - 1], k);
      RunStamped(t, ops[..|ops| - 1]);
      StepEvolves(before, op, k);
      EvolvesOn(t[k], before[k], Applied(before, op)[k]);
    }
  }

  /** Every row of a run from the empty table has a booking behind it, the one that added it. */
  lemma {:induction false} RunBirth(ops: seq<Op>, k: int) returns (i: nat)
    requires k in AfterAll(map[], ops)
    ensures i < |ops| && BornOf(ops[i], AfterAll(map[], ops)[k])
    ensures k !in AfterAll(map[], ops[..i]) && k in Applied(AfterAll(map[], ops[..i]), ops[i])
  {
    var n := |ops| - 1;
    i := n;
    var before, op := AfterAll(map[], ops[..n]), ops[n];
    RunStamped(map[], ops[..n]);
    StepEvolves(before, op, k);
    if k in before {
      i := RunBirth(ops[..n], k);
      assert ops[..n][..i] == ops[..i];
      BirthStays(ops[i], before[k], Applied(before, op)[k]);
    }
  }

  /** A row as its booking stored it. */
  lemma BornPaid(t: Table, op: Op, k: int)
    requires op.Book? && k !in t && k in Applied(t, op)
    ensures var r := Applied(t, op)[k];
            r.status == "PAID" && r.createdAt == op.w.nowMs && r.paidAt == Some(op.w.nowMs) && r.completedAt == None
    ensures k == OrderId(op.w.orderMs, op.hash) && (op.reqId != 0 ==> Applied(t, op)[k].reqId == op.reqId)
  {
    NewRowIs(t, [], op.productId, op.userId, op.reqId, op.w, op.hash, k);
  }

  lemma BirthStays(op: Op, r: Row, s: Row)
    requires BornOf(op, r) && Evolves(r, s)
    ensures BornOf(op, s)
  {}

  predicate InstancesInWindow(ops: seq<Op>) {
    forall i :: 0 <= i < |ops| && ops[i].Book? ==> InstanceClock(ops[i].w.instanceMs)
  }

  /** The two ids of a row carry the same user bits; a NULL instance id stands for 0. */
  predicate IdsMatch(r: Row) {
    r.orderId >= 0 && FromRow(r).instanceId >= 0 && And(r.orderId, 0x7FFF) == Shr(FromRow(r).instanceId, 48)
  }

  /** The table invariant of every run of bookings and status changes. */
  lemma RowsOfAnyRun(ops: seq<Op>, k: int) returns (i: nat)
    requires k in AfterAll(map[], ops)
    ensures Stamped(AfterAll(map[], ops)[k]) && AfterAll(map[], ops)[k].paidAt.Some?
    ensures i < |ops| && ops[i].Book? && ops[i].w.lookup.Found?
    ensures ops[i].w.lookup.product.status == "ENABLED" && AfterAll(map[], ops)[k].amount == ops[i].w.lookup.product.price
    ensures AfterAll(map[], ops)[k].userId == ops[i].userId && AfterAll(map[], ops)[k].productId == ops[i].productId
    ensures k == OrderId(ops[i].w.orderMs, ops[i].hash) && AfterAll(map[], ops)[k].createdAt == ops[i].w.nowMs
    ensures ops[i].reqId != 0 ==> AfterAll(map[], ops)[k].reqId == ops[i].reqId
    ensures k !in AfterAll(map[], ops[..i]) && k in Applied(AfterAll(map[], ops[..i]), ops[i])
    ensures var born := Applied(AfterAll(map[], ops[..i]), ops[i])[k];
            born.status == "PAID" && born.paidAt == Some(ops[i].w.nowMs) && born.completedAt == None
    ensures InstancesInWindow(ops) ==> IdsMatch(AfterAll(map[], ops)[k])
  {
    RunStamped(map[], ops);
    i := RunBirth(ops, k);
    BornPaid(AfterAll(map[], ops[..i]), ops[i], k);
    if InstancesInWindow(ops) {
      IdsAgree(ops[i].w.orderMs, ops[i].w.instanceMs, ops[i].hash);
    }
  }

  /** An order booked with success is paid at first, and is read back, after anything that happens later, with
      the user, the product, the price and the ids it was booked with. */
  lemma BookedStays(t: Table, op: Op, later: seq<Op>)
    requires forall j :: j in t ==> Stamped(t[j])
    requires op.Book? && Booked(t, [], op.productId, op.userId, op.reqId, op.w, op.hash).result.Ok?
    ensures var id := OrderId(op.w.orderMs, op.hash);
            && id !in t && id in Applied(t, op) && Applied(t, op)[id].status == "PAID"
            && id in AfterAll(Applied(t, op), later) && op.w.lookup.Found?
            && var read := FromRow(AfterAll(Applied(t, op), later)[id]);
               && read.id == id && read.userId == op.userId && read.productId == op.productId
               && read.amount == op.w.lookup.product.price && read.instanceId == InstanceId(op.w.instanceMs, op.hash)
               && read.reqId == (if op.reqId == 0 then OrderId(op.w.reqMs, op.hash) else op.reqId)
               && read.createdAt == op.w.nowMs && read.paidAt.Some?
  {
    var id := OrderId(op.w.orderMs, op.hash);
    StampedAfter(t, op);
    NewRowIs(t, [], op.productId, op.userId, op.reqId, op.w, op.hash, id);
    RunEvolves(Applied(t, op), later, id);
  }

  lemma StampedAfter(t: Table, op: Op)
    requires forall j :: j in t ==> Stamped(t[j])
    ensures forall j :: j in Applied(t, op) ==> Stamped(Applied(t, op)[j])
  {
    forall j | j in Applied(t, op) ensures Stamped(Applied(t, op)[j]) {
      StepEvolves(t, op, j);
    }
  }
}
