/** Why an acknowledged message can be without an order, and runs without any failure in which that happens:
    two messages with one key, and two that draw one order id. */
module LostOrder {
  import opened Orders
  import opened IdGenerators
  import opened Booking
  import opened StreamHash
  import opened Machine
  import opened Ledgers
  import opened Guarantees
  import opened Solo
  import opened Recovery

  // ---------------------------------------------------------------------------------------------
  // The cause
  // ---------------------------------------------------------------------------------------------

  /** Row k, another job's, stands in the way of the row drafted for the message: it holds the same order id,
      or the same product and key. */
  predicate InTheWay(l: Ledger, pos: nat, row: Row, k: int) {
    && k in l.owner && k in l.orders && l.owner[k] != Message(pos)
    && (k == row.orderId || HasKey(l.orders[k], row.productId, row.reqId))
  }

  /** An acknowledged message without an order collided with the row of another job, and that job's attempt
      is in the run as well. If the other job is a message, it drew the same order id or has the same key. */
  lemma UnbookedHasRival(c: Config, s0: State, steps: seq<Step>, s: State, pos: nat) returns (row: Row, k: int)
    requires Reached(c, s0, steps, s) && pos in s.group.acked && pos !in s.ledger.bookedAs
    ensures RunDrafts(c, s0, steps, row, Message(pos)) && InTheWay(s.ledger, pos, row, k)
    ensures RunDrafts(c, s0, steps, s.ledger.orders[k], s.ledger.owner[k])
    ensures s.ledger.owner[k].Message? && KeysNonZero(s.group.stream) ==>
              s.ledger.owner[k].pos < |s.group.stream| && pos < |s.group.stream| &&
              (s.ledger.orders[k].orderId == row.orderId ||
               Hash(s.group.stream[s.ledger.owner[k].pos].id) == Hash(s.group.stream[pos].id))
  {
    ReachedInv(c, s0, steps, s);
    row := AckedHasRow(c, s0, steps, s, pos);
    k := RowMet(s.ledger, row);
    assert MadeFor(c, s.group.stream, s.ledger.owner[k], s.ledger.orders[k]);
    DraftedByRun(c, s0, steps, s.ledger.orders[k], s.ledger.owner[k]);
    InitialDraftsNothing(s0, s.ledger.orders[k], s.ledger.owner[k]);
  }

  lemma InitialDraftsNothing(s: State, row: Row, job: Job)
    requires Initial(s)
    ensures !DraftedFor(s.ledger, job, row)
  {}

  lemma RowMet(l: Ledger, row: Row) returns (k: int)
    requires row.orderId in l.orders || KeyTaken(l.orders, row.productId, row.reqId)
    ensures k in l.orders && (k == row.orderId || HasKey(l.orders[k], row.productId, row.reqId))
  {
    k := row.orderId;
    if k !in l.orders {
      k :| k in l.orders && HasKey(l.orders[k], row.productId, row.reqId);
    }
  }

  // ---------------------------------------------------------------------------------------------
  // From any state on
  // ---------------------------------------------------------------------------------------------

  /** Both messages have been acknowledged and one of them has no order. */
  predicate OneStarved(s: State, p: nat, q: nat) {
    p in s.group.acked && q in s.group.acked && (p !in s.ledger.bookedAs || q !in s.ledger.bookedAs)
  }

  predicate TwoMessages(s: State, p: nat, q: nat) {
    && p < q < |s.group.stream|
    && s.group.stream[p].uid != "" && s.group.stream[p].uid != "<nil>"
    && s.group.stream[q].uid != "" && s.group.stream[q].uid != "<nil>"
  }

  lemma GoesOn(c: Config, s0: State, steps: seq<Step>, s: State, world: nat -> World) returns (rest: seq<Step>, f: State)
    requires Reached(c, s0, steps, s) && s.workers != [] && AllSmooth(world)
    ensures Leads(c, s, rest, f, world, 1) && AllAcked(f.group) && Reached(c, s0, steps + rest, f)
  {
    ReachedInv(c, s0, steps, s);
    rest, f := Recoverable(c, s, world, 1);
    RunsConcat(c, s0, steps, rest);
  }

  /** Wherever two messages of one key stand in the stream, steps that meet no failure acknowledge both, and
      one of the two buyers gets nothing. */
  lemma SharedKeyCostsOrder(c: Config, s0: State, steps: seq<Step>, s: State, p: nat, q: nat, world: nat -> World)
    returns (rest: seq<Step>, f: State)
    requires Reached(c, s0, steps, s) && s.workers != [] && AllSmooth(world) && TwoMessages(s, p, q)
    requires Hash(s.group.stream[p].id) == Hash(s.group.stream[q].id) != 0
    ensures Leads(c, s, rest, f, world, 1) && OneStarved(f, p, q)
  {
    rest, f := GoesOn(c, s0, steps, s, world);
    SharedKeyStarves(c, s0, steps + rest, f, p, q);
  }

  /** All that is drafted for the message has this order id. */
  ghost predicate OneIdOnly(drafted: set<(Row, Job)>, p: nat, id: int) {
    forall d :: d in drafted && d.1 == Message(p) ==> d.0.orderId == id
  }

  lemma BookedUnderId(c: Config, s: State, p: nat, id: int)
    requires Ledgers.Inv(c, s) && OneIdOnly(s.ledger.drafted, p, id) && p in s.ledger.bookedAs
    ensures id in s.ledger.owner && s.ledger.owner[id] == Message(p)
  {
    var l := s.ledger;
    var k := l.bookedAs[p];
    assert DraftedFor(l, l.owner[k], l.orders[k]);
  }

  lemma OneIdStarves(c: Config, s: State, p: nat, q: nat, id: int)
    requires Ledgers.Inv(c, s) && p != q && OneIdOnly(s.ledger.drafted, p, id) && OneIdOnly(s.ledger.drafted, q, id)
    ensures p !in s.ledger.bookedAs || q !in s.ledger.bookedAs
  {
    if p in s.ledger.bookedAs {
      BookedUnderId(c, s, p, id);
    }
    if q in s.ledger.bookedAs {
      BookedUnderId(c, s, q, id);
    }
  }

  lemma StillOneId(c: Config, s: State, f: State, world: nat -> World, p: nat, id: int)
    requires DraftsFrom(c, s, f, world) && OneIdOnly(s.ledger.drafted, p, id)
    requires p < |s.group.stream| && IdFor(c, s.group.stream, world, p) == id
    ensures OneIdOnly(f.ledger.drafted, p, id)
  {}

  /** And wherever two messages have yet to be drafted whose users agree in fifteen bits of their hash, the
      same happens if both order ids are drawn in one millisecond. */
  lemma SharedIdCostsOrder(c: Config, s0: State, steps: seq<Step>, s: State, p: nat, q: nat, world: nat -> World)
    returns (rest: seq<Step>, f: State)
    requires Reached(c, s0, steps, s) && s.workers != [] && AllSmooth(world) && TwoMessages(s, p, q)
    requires forall d :: d in s.ledger.drafted ==> d.1 != Message(p) && d.1 != Message(q)
    requires UserBits(c.hash(s.group.stream[p].uid)) == UserBits(c.hash(s.group.stream[q].uid))
    requires world(p).orderMs == world(q).orderMs
    ensures Leads(c, s, rest, f, world, 1) && OneStarved(f, p, q)
  {
    rest, f := GoesOn(c, s0, steps, s, world);
    var id := IdFor(c, s.group.stream, world, p);
    OrderIdsEqualIff(world(p).orderMs, c.hash(s.group.stream[p].uid), world(q).orderMs, c.hash(s.group.stream[q].uid));
    StillOneId(c, s, f, world, p, id);
    StillOneId(c, s, f, world, q, id);
    ReachedInv(c, s0, steps + rest, f);
    OneIdStarves(c, f, p, q, id);
  }

  // ---------------------------------------------------------------------------------------------
  // From the start
  // ---------------------------------------------------------------------------------------------

  ghost predicate DistinctIds(stream: seq<Entry>) {
    forall i, j :: 0 <= i < j < |stream| ==> stream[i].id != stream[j].id
  }

  /** Entries arrive one after the other. */
  lemma {:induction false} AllArrive(c: Config, s0: State, stream: seq<Entry>) returns (steps: seq<Step>)
    requires Initial(s0) && DistinctIds(stream)
    ensures Runs(c, s0, steps) && Final(c, s0, steps) == s0.(group := s0.group.(stream := stream))
  {
    steps := [];
    if stream != [] {
      var rest, last := stream[..|stream| - 1], stream[|stream| - 1];
      steps := AllArrive(c, s0, rest);
      OneMoreArrives(c, s0, steps, rest, last);
      assert rest + [last] == stream;
      steps := steps + [Append(last)];
    }
  }

  lemma OneMoreArrives(c: Config, s0: State, steps: seq<Step>, stream: seq<Entry>, last: Entry)
    requires Runs(c, s0, steps) && Final(c, s0, steps) == s0.(group := s0.group.(stream := stream))
    requires forall i :: 0 <= i < |stream| ==> stream[i].id != last.id
    ensures Runs(c, s0, steps + [Append(last)])
    ensures Final(c, s0, steps + [Append(last)]) == s0.(group := s0.group.(stream := stream + [last]))
  {
    var s := Final(c, s0, steps);
    RunsCons(c, s, Append(last), []);
    assert [Append(last)] + [] == [Append(last)];
    RunsConcat(c, s0, steps, [Append(last)]);
  }

  /** Whatever arrives, if two of the messages have one key, or users that agree in fifteen bits whose order
      ids are drawn in one millisecond, there is a run without any failure in which both are acknowledged and
      one has no order. */
  lemma AckedWithoutOrder(c: Config, s0: State, stream: seq<Entry>, p: nat, q: nat, world: nat -> World)
    returns (steps: seq<Step>)
    requires Initial(s0) && s0.workers != [] && DistinctIds(stream) && AllSmooth(world)
    requires p < q < |stream| && stream[p].uid != "" && stream[p].uid != "<nil>"
    requires stream[q].uid != "" && stream[q].uid != "<nil>"
    requires || Hash(stream[p].id) == Hash(stream[q].id) != 0
             || (UserBits(c.hash(stream[p].uid)) == UserBits(c.hash(stream[q].uid)) &&
                 world(p).orderMs == world(q).orderMs)
    ensures Runs(c, s0, steps)
    ensures var s := Final(c, s0, steps); s.group.stream == stream && OneStarved(s, p, q)
  {
    var arrive := AllArrive(c, s0, stream);
    var s := Final(c, s0, arrive);
    var rest, f;
    if Hash(stream[p].id) == Hash(stream[q].id) != 0 {
      rest, f := SharedKeyCostsOrder(c, s0, arrive, s, p, q, world);
    } else {
      rest, f := SharedIdCostsOrder(c, s0, arrive, s, p, q, world);
    }
    RunsConcat(c, s0, arrive, rest);
    steps := arrive + rest;
  }
}
