/** The whole sale: once the consumer has acknowledged a round, each of its buyers has exactly one order
    and the orders are as many as the units sold. */
module Fulfilment {
  import opened Orders
  import opened Booking
  import opened StreamHash
  import opened RealIds
  import opened RealKeys
  import opened Counting
  import opened Machine
  import Ledgers
  import Exactness
  import Loops
  import opened Refinement
  import opened Admission
  import opened EndToEnd
  import opened Recovery

  /** What a move makes the consumer do is disciplined. */
  predicate MoveDisciplined(c: Config, y: System, m: Move, floor: int)
    requires Possible(y, m)
  {
    match m
    case Buy(uid, id) =>
      Bought(y.round, uid, id).1.Sold? ==> Exactness.Disciplined(c, y.consumer, Append(SaleEntry(y, uid, id)), floor)
    case Open(_, _) => true
    case Consume(step) => Exactness.Disciplined(c, y.consumer, step, floor)
  }

  predicate DisciplinedMoves(c: Config, y: System, moves: seq<Move>, floor: int)
    requires MovesRun(c, y, moves)
    decreases |moves|
  {
    moves == [] ||
    (MoveDisciplined(c, y, moves[0], floor) && DisciplinedMoves(c, Moved(c, y, moves[0]), moves[1..], floor))
  }

  ghost predicate Fair(c: Config, y: System, floor: int) {
    EndToEnd.Inv(c, y) && Exactness.Inv(c, y.consumer, floor)
  }

  lemma FairOpening(c: Config, s: State, productId: int, stock: nat, floor: int)
    requires Initial(s) && floor > 0
    ensures Fair(c, Opening(productId, stock, s), floor)
  {
    OpeningInv(c, s, productId, stock);
    Exactness.InitialInv(c, s, floor);
  }

  lemma MoveKeepsFair(c: Config, y: System, m: Move, floor: int)
    requires Fair(c, y, floor) && Possible(y, m) && MoveDisciplined(c, y, m, floor)
    ensures Fair(c, Moved(c, y, m), floor)
  {
    MoveKeeps(c, y, m);
    match m
    case Buy(uid, id) =>
      if Bought(y.round, uid, id).1.Sold? {
        Exactness.StepKeeps(c, y.consumer, Append(SaleEntry(y, uid, id)), floor);
      }
    case Open(_, _) =>
    case Consume(step) => Exactness.StepKeeps(c, y.consumer, step, floor);
  }

  lemma {:induction false} RunKeepsFair(c: Config, y: System, moves: seq<Move>, floor: int)
    requires Fair(c, y, floor) && MovesRun(c, y, moves) && DisciplinedMoves(c, y, moves, floor)
    ensures Fair(c, EndToEnd.Outcome(c, y, moves), floor)
    decreases |moves|
  {
    if moves != [] {
      MoveKeepsFair(c, y, moves[0], floor);
      RunKeepsFair(c, Moved(c, y, moves[0]), moves[1..], floor);
    }
  }

  // ---------------------------------------------------------------------------------------------
  // A drained round
  // ---------------------------------------------------------------------------------------------

  /** Every entry of the round has been acknowledged. */
  ghost predicate Drained(g: Group, sp: Span) {
    forall p: nat :: sp.terms.base <= p < sp.end ==> p in g.acked
  }

  lemma NonZeroKeys(stream: seq<Entry>, floor: int)
    requires Exactness.KeysOk(stream, floor)
    ensures KeysNonZero(stream)
  {}

  lemma AckedHasRow(c: Config, s: State, floor: int, sp: Span, p: nat)
    requires Exactness.Inv(c, s, floor) && sp.terms.base <= p < sp.end && p in s.group.acked
    ensures p in s.ledger.bookedAs && s.ledger.bookedAs[p] in RoundRows(s.ledger, sp)
    ensures s.ledger.owner[s.ledger.bookedAs[p]] == Message(p)
  {}

  /** Where in its round an order's entry stands, counting from 1. */
  function PlaceOf(l: Ledger, base: nat, k: int): int {
    if k in l.owner && l.owner[k].Message? then l.owner[k].pos - base + 1 else 0
  }

  function Places(l: Ledger, base: nat, rows: set<int>): set<int> {
    set k | k in rows :: PlaceOf(l, base, k)
  }

  lemma {:induction false} PlacesCount(l: Ledger, base: nat, rows: set<int>)
    ensures |Places(l, base, rows)| <= |rows|
  {
    if rows != {} {
      var k := Member(rows);
      var rest := rows - {k};
      PlacesCount(l, base, rest);
      assert Places(l, base, rows) == Places(l, base, rest) + {PlaceOf(l, base, k)};
    }
  }

  lemma PlaceTaken(c: Config, s: State, floor: int, sp: Span, i: int)
    requires Exactness.Inv(c, s, floor) && Drained(s.group, sp) && 1 <= i <= sp.end - sp.terms.base
    ensures i in Places(s.ledger, sp.terms.base, RoundRows(s.ledger, sp))
  {
    var p := sp.terms.base + i - 1;
    AckedHasRow(c, s, floor, sp, p);
    assert s.ledger.bookedAs[p] in s.ledger.owner;
    RowTakesPlace(s.ledger, sp.terms.base, RoundRows(s.ledger, sp), s.ledger.bookedAs[p], p, i);
  }

  lemma RowTakesPlace(l: Ledger, base: nat, rows: set<int>, k: int, p: nat, i: int)
    requires k in rows && k in l.owner && l.owner[k] == Message(p) && i == p - base + 1
    ensures i in Places(l, base, rows)
  {
    assert PlaceOf(l, base, k) == i;
  }

  lemma FirstOnes(n: nat, places: set<int>)
    requires forall i :: 1 <= i <= n ==> i in places
    ensures n <= |places|
  {
    UptoCount(n);
    forall i | i in Upto(n) ensures i in places {}
    SubsetCount(Upto(n), places);
  }

  lemma EntriesWithinRows(c: Config, s: State, floor: int, sp: Span)
    requires Exactness.Inv(c, s, floor) && Drained(s.group, sp) && sp.terms.base <= sp.end
    ensures sp.end - sp.terms.base <= |RoundRows(s.ledger, sp)|
  {
    forall i | 1 <= i <= sp.end - sp.terms.base ensures i in Places(s.ledger, sp.terms.base, RoundRows(s.ledger, sp)) {
      PlaceTaken(c, s, floor, sp, i);
    }
    FirstOnes(sp.end - sp.terms.base, Places(s.ledger, sp.terms.base, RoundRows(s.ledger, sp)));
    PlacesCount(s.ledger, sp.terms.base, RoundRows(s.ledger, sp));
  }

  /** Orders and units sold are equally many, for the open round and every round before it. */
  lemma DrainedRoundIsBooked(c: Config, y0: System, moves: seq<Move>, y: System, floor: int, sp: Span)
    requires Fair(c, y0, floor) && MovesRun(c, y0, moves) && DisciplinedMoves(c, y0, moves, floor)
    requires y == EndToEnd.Outcome(c, y0, moves) && sp in Spans(y) && Drained(y.consumer.group, sp)
    ensures |RoundRows(y.consumer.ledger, sp)| == sp.end - sp.terms.base
    ensures Sound(y.round, y.terms) && OpenSpan(y).end - y.terms.base == y.terms.stock - y.round.stock.value
  {
    RunKeepsFair(c, y0, moves, floor);
    NonZeroKeys(y.round.stream, floor);
    SpansOk(c, y, sp);
    RowsWithinSpan(c, y.round.stream, y.consumer.ledger, sp);
    EntriesWithinRows(c, y.consumer, floor, sp);
  }

  /** The user bought in the round. */
  ghost predicate HasBought(stream: seq<Entry>, sp: Span, uid: string) {
    exists p :: sp.terms.base <= p < sp.end && p < |stream| && stream[p].uid == uid
  }

  /** For the open round this is what its hash of buyers says. */
  lemma BuyersBought(r: Round, t: Terms, uid: string)
    requires Sound(r, t)
    ensures HasBought(r.stream, Span(t, |r.stream|), uid) <==> uid in r.uid2req
  {
    if uid in r.uid2req {
      assert BuyerOk(r, t, uid);
      assert r.stream[t.base + r.uid2req[uid] - 1].uid == uid;
    }
    forall p | t.base <= p < |r.stream| && r.stream[p].uid == uid ensures uid in r.uid2req {
      assert EntryOk(r, t, p);
    }
  }

  /** An order of the user in the round. */
  predicate OrderOf(l: Ledger, sp: Span, uid: string, k: int) {
    k in RoundRows(l, sp) && k in l.orders && l.orders[k].userId == uid
  }

  /** Each buyer of a drained round, and nobody else, has an order of that round, and just one. */
  lemma BuyersGetTheirOrder(c: Config, y0: System, moves: seq<Move>, y: System, floor: int, sp: Span, uid: string)
    requires Fair(c, y0, floor) && MovesRun(c, y0, moves) && DisciplinedMoves(c, y0, moves, floor)
    requires y == EndToEnd.Outcome(c, y0, moves) && sp in Spans(y) && Drained(y.consumer.group, sp)
    ensures HasBought(y.round.stream, sp, uid) <==> exists k :: OrderOf(y.consumer.ledger, sp, uid, k)
    ensures forall j, k :: OrderOf(y.consumer.ledger, sp, uid, j) && OrderOf(y.consumer.ledger, sp, uid, k) ==> j == k
  {
    RunKeepsFair(c, y0, moves, floor);
    NonZeroKeys(y.round.stream, floor);
    SpansOk(c, y, sp);
    OrderForBuyer(c, y.consumer, floor, sp, uid);
    OnlyBuyers(c, y.round.stream, y.consumer.ledger, sp, uid);
  }

  lemma OrderForBuyer(c: Config, s: State, floor: int, sp: Span, uid: string)
    requires Exactness.Inv(c, s, floor) && Drained(s.group, sp)
    ensures HasBought(s.group.stream, sp, uid) ==> exists k :: OrderOf(s.ledger, sp, uid, k)
  {
    if HasBought(s.group.stream, sp, uid) {
      var p: nat :| sp.terms.base <= p < sp.end && p < |s.group.stream| && s.group.stream[p].uid == uid;
      AckedHasRow(c, s, floor, sp, p);
      var k := s.ledger.bookedAs[p];
      assert Ledgers.MadeFor(c, s.group.stream, s.ledger.owner[k], s.ledger.orders[k]);
      assert OrderOf(s.ledger, sp, uid, k);
    }
  }

  lemma OnlyBuyers(c: Config, stream: seq<Entry>, l: Ledger, sp: Span, uid: string)
    requires Ledgers.LedgerOk(c, stream, l) && KeysNonZero(stream) && SpanOk(stream, sp)
    ensures (exists k :: OrderOf(l, sp, uid, k)) ==> HasBought(stream, sp, uid)
    ensures forall j, k :: OrderOf(l, sp, uid, j) && OrderOf(l, sp, uid, k) ==> j == k
  {
    forall k | OrderOf(l, sp, uid, k) ensures HasBought(stream, sp, uid) {
      RowOfRound(c, stream, l, sp, k);
      assert stream[l.owner[k].pos].uid == uid;
    }
    forall j, k | OrderOf(l, sp, uid, j) && OrderOf(l, sp, uid, k) ensures j == k {
      SameBuyer(c, stream, l, sp, j, k);
    }
  }

  // ---------------------------------------------------------------------------------------------
  // Real sales are disciplined
  // ---------------------------------------------------------------------------------------------

  /** Sales of ten units a millisecond at most, before 15 January 2027, and a calm consumer. */
  predicate CalmMove(c: Config, y: System, m: Move)
    requires Possible(y, m)
  {
    match m
    case Buy(uid, id) => Bought(y.round, uid, id).1.Sold? ==> Sparse(id)
    case Open(_, _) => true
    case Consume(step) => Calm(c, y.consumer, step)
  }

  predicate CalmMoves(c: Config, y: System, moves: seq<Move>)
    requires MovesRun(c, y, moves)
    decreases |moves|
  {
    moves == [] || (CalmMove(c, y, moves[0]) && CalmMoves(c, Moved(c, y, moves[0]), moves[1..]))
  }

  lemma CalmMoveIsDisciplined(c: Config, y: System, m: Move)
    requires Possible(y, m) && CalmMove(c, y, m) && AllSparse(y.consumer.group.stream)
    ensures MoveDisciplined(c, y, m, BAND) && AllSparse(Moved(c, y, m).consumer.group.stream)
  {
    match m
    case Buy(uid, id) =>
      if Bought(y.round, uid, id).1.Sold? {
        CalmIsDisciplined(c, y.consumer, Append(SaleEntry(y, uid, id)));
      }
    case Open(_, _) =>
    case Consume(step) =>
      CalmIsDisciplined(c, y.consumer, step);
      CalmStream(c, y.consumer, step);
  }

  lemma {:induction false} CalmMovesAreDisciplined(c: Config, y: System, moves: seq<Move>)
    requires MovesRun(c, y, moves) && CalmMoves(c, y, moves) && AllSparse(y.consumer.group.stream)
    ensures DisciplinedMoves(c, y, moves, BAND)
    decreases |moves|
  {
    if moves != [] {
      CalmMoveIsDisciplined(c, y, moves[0]);
      CalmMovesAreDisciplined(c, Moved(c, y, moves[0]), moves[1..]);
    }
  }

  /** Faster sales, while no round's product is sold directly. */
  predicate BusyMove(c: Config, y: System, m: Move)
    requires Possible(y, m)
  {
    match m
    case Buy(uid, id) => Bought(y.round, uid, id).1.Sold? ==> Ordinary(id)
    case Open(_, _) => true
    case Consume(step) => Busy(c, y.consumer, step)
  }

  predicate BusyMoves(c: Config, y: System, moves: seq<Move>)
    requires MovesRun(c, y, moves)
    decreases |moves|
  {
    moves == [] || (BusyMove(c, y, moves[0]) && BusyMoves(c, Moved(c, y, moves[0]), moves[1..]))
  }

  lemma BusyMoveIsDisciplined(c: Config, y: System, m: Move)
    requires Possible(y, m) && BusyMove(c, y, m) && AllOrdinary(y.consumer.group.stream)
    ensures MoveDisciplined(c, y, m, 1) && AllOrdinary(Moved(c, y, m).consumer.group.stream)
  {
    match m
    case Buy(uid, id) =>
      if Bought(y.round, uid, id).1.Sold? {
        BusyIsDisciplined(c, y.consumer, Append(SaleEntry(y, uid, id)));
      }
    case Open(_, _) =>
    case Consume(step) => BusyIsDisciplined(c, y.consumer, step);
  }

  lemma {:induction false} BusyMovesAreDisciplined(c: Config, y: System, moves: seq<Move>)
    requires MovesRun(c, y, moves) && BusyMoves(c, y, moves) && AllOrdinary(y.consumer.group.stream)
    ensures DisciplinedMoves(c, y, moves, 1)
    decreases |moves|
  {
    if moves != [] {
      BusyMoveIsDisciplined(c, y, moves[0]);
      BusyMovesAreDisciplined(c, Moved(c, y, moves[0]), moves[1..]);
    }
  }

  /** From the first opening on, for real ids: a drained round has made one order for each unit sold. */
  lemma RealSalesAreFulfilled(c: Config, s: State, productId: int, stock: nat, moves: seq<Move>, y: System, sp: Span)
    requires Initial(s) && MovesRun(c, Opening(productId, stock, s), moves)
    requires CalmMoves(c, Opening(productId, stock, s), moves) || BusyMoves(c, Opening(productId, stock, s), moves)
    requires y == EndToEnd.Outcome(c, Opening(productId, stock, s), moves) && sp in Spans(y) &&
              Drained(y.consumer.group, sp)
    ensures |RoundRows(y.consumer.ledger, sp)| == sp.end - sp.terms.base
    ensures forall uid :: HasBought(y.round.stream, sp, uid) <==> exists k :: OrderOf(y.consumer.ledger, sp, uid, k)
  {
    var y0 := Opening(productId, stock, s);
    var floor := if CalmMoves(c, y0, moves) then BAND else 1;
    if CalmMoves(c, y0, moves) {
      CalmMovesAreDisciplined(c, y0, moves);
    } else {
      BusyMovesAreDisciplined(c, y0, moves);
    }
    FairOpening(c, s, productId, stock, floor);
    DrainedRoundIsBooked(c, y0, moves, y, floor, sp);
    forall uid ensures HasBought(y.round.stream, sp, uid) <==> exists k :: OrderOf(y.consumer.ledger, sp, uid, k) {
      BuyersGetTheirOrder(c, y0, moves, y, floor, sp, uid);
    }
  }

  // ---------------------------------------------------------------------------------------------
  // Every round can be drained
  // ---------------------------------------------------------------------------------------------

  /** The consumer's steps as moves of the system. */
  function Consumes(steps: seq<Step>): seq<Move> {
    seq(|steps|, i requires 0 <= i < |steps| => Consume(steps[i]))
  }

  lemma {:induction false} ConsumesRun(c: Config, y: System, steps: seq<Step>, floor: int)
    requires Runs(c, y.consumer, steps) && AllUnfailing(steps)
    ensures MovesRun(c, y, Consumes(steps))
    ensures EndToEnd.Outcome(c, y, Consumes(steps)) == y.(consumer := Final(c, y.consumer, steps))
    ensures DisciplinedRun(c, y.consumer, steps, floor) ==> DisciplinedMoves(c, y, Consumes(steps), floor)
    decreases |steps|
  {
    if steps != [] {
      ConsumesRun(c, y.(consumer := Apply(c, y.consumer, steps[0])), steps[1..], floor);
      assert Consumes(steps)[1..] == Consumes(steps[1..]) && Consumes(steps)[0] == Consume(steps[0]);
    }
  }

  /** Moves of the consumer alone, of one worker for which nothing fails. */
  ghost predicate Drains(c: Config, y: System, moves: seq<Move>, f: System, floor: int) {
    && MovesRun(c, y, moves) && DisciplinedMoves(c, y, moves, floor) && f == EndToEnd.Outcome(c, y, moves)
    && f.round == y.round && f.terms == y.terms && f.past == y.past
    && (forall i :: 0 <= i < |moves| ==> moves[i].Consume? && Unfailing(moves[i].step))
    && (forall sp :: sp in Spans(f) ==> Drained(f.consumer.group, sp))
  }

  lemma DrainedWith(c: Config, y: System, world: nat -> World, floor: int) returns (moves: seq<Move>, f: System)
    requires Fair(c, y, floor) && y.consumer.workers != [] && AllSmooth(world) && Supply(c, y.consumer, world)
    requires forall p :: 0 <= p < |y.round.stream| ==> y.round.stream[p].uid != "" && y.round.stream[p].uid != "<nil>"
    ensures Drains(c, y, moves, f, floor)
  {
    var steps, g := Recoverable(c, y.consumer, world, floor);
    ConsumesRun(c, y, steps, floor);
    moves, f := Consumes(steps), y.(consumer := g);
    forall sp | sp in Spans(y) ensures Drained(g.group, sp) {
      SpansOk(c, y, sp);
    }
  }

  /** From every state of a fair system the consumer alone can drain all rounds, so that the theorems about
      drained rounds speak of sales that do happen: nothing more is sold meanwhile. */
  lemma RoundsCanBeDrained(c: Config, y: System, w: World, floor: int) returns (moves: seq<Move>, f: System)
    requires Fair(c, y, floor) && y.consumer.workers != [] && Loops.Smooth(w)
    requires |y.consumer.ledger.drafted| + |y.round.stream| <= STAMPS
    requires forall p :: 0 <= p < |y.round.stream| ==> y.round.stream[p].uid != "" && y.round.stream[p].uid != "<nil>"
    ensures Drains(c, y, moves, f, floor)
  {
    var world := SupplyExists(c, y.consumer, w);
    moves, f := DrainedWith(c, y, world, floor);
  }

  // ---------------------------------------------------------------------------------------------
  // A sale for which the wrong product is ordered
  // ---------------------------------------------------------------------------------------------

  lemma FirstBought(before: int, productId: int, stock: nat, uid: string, id: Id)
    requires stock > 0
    ensures var (r, answer) := Bought(Opened(Opened(Cleared(), before, 1), productId, stock), uid, id);
            answer.Sold? && r.stream == [Entry(id, uid, productId)] && r.productId == Some(productId)
  {}

  lemma FirstAppend(c: Config, s: State, e: Entry)
    requires Initial(s) && Hash(e.id) > 0
    ensures Enabled(s, Append(e)) && Exactness.Disciplined(c, s, Append(e), 1)
    ensures Apply(c, s, Append(e)).ledger.drafted == {}
  {}

  /** The server's product is on sale; then a round of another product opens. */
  function Reopened(c: Config, s: State, productId: int, stock: nat): System
    requires stock > 0
  {
    Moved(c, Opening(c.productId, 1, s), Open(productId, stock))
  }

  /** One unit is sold in a round that has just opened. */
  lemma SellOne(c: Config, s: State, productId: int, stock: nat, uid: string, id: Id) returns (y: System)
    requires Initial(s) && s.workers != [] && stock > 0 && Hash(id) > 0
    ensures Possible(Reopened(c, s, productId, stock), Buy(uid, id))
    ensures y == Moved(c, Reopened(c, s, productId, stock), Buy(uid, id))
    ensures Fair(c, y, 1) && y.consumer.workers != [] && y.round.stream == [Entry(id, uid, productId)]
    ensures y.round.productId == Some(productId) && y.terms == Terms(productId, stock, 0)
    ensures y.consumer.ledger.drafted == {}
  {
    var y0 := Reopened(c, s, productId, stock);
    FairOpening(c, s, c.productId, 1, 1);
    MoveKeepsFair(c, Opening(c.productId, 1, s), Open(productId, stock), 1);
    FirstBought(c.productId, productId, stock, uid, id);
    FirstAppend(c, s, Entry(id, uid, productId));
    MoveKeepsFair(c, y0, Buy(uid, id), 1);
    y := Moved(c, y0, Buy(uid, id));
  }

  /** Order k of the open round is the user's, and not for the product of the round. */
  predicate WronglyOrdered(f: System, productId: int, uid: string, k: int) {
    f.round.productId == Some(productId) && OrderOf(f.consumer.ledger, OpenSpan(f), uid, k) &&
    f.consumer.ledger.orders[k].productId != productId
  }

  /** A round of the server's product and then one of another: a run with no refused write in which the
      buyer's order is for the product that was not sold. */
  lemma WrongProductOrdered(c: Config, s: State, productId: int, stock: nat, uid: string, id: Id, w: World)
    returns (moves: seq<Move>, k: int)
    requires Initial(s) && s.workers != [] && stock > 0 && Hash(id) > 0 && uid != "" && uid != "<nil>"
    requires c.productId != productId && Loops.Smooth(w)
    ensures MovesRun(c, Opening(c.productId, 1, s), moves) && moves != [] && moves[0] == Open(productId, stock)
    ensures WronglyOrdered(EndToEnd.Outcome(c, Opening(c.productId, 1, s), moves), productId, uid, k)
  {
    var y := SellOne(c, s, productId, stock, uid, id);
    moves, k := DrainAndOrder(c, y, productId, stock, uid, w);
    MovesCons(c, Reopened(c, s, productId, stock), Buy(uid, id), moves);
    moves := [Buy(uid, id)] + moves;
    MovesCons(c, Opening(c.productId, 1, s), Open(productId, stock), moves);
    moves := [Open(productId, stock)] + moves;
  }

  lemma DrainAndOrder(c: Config, y: System, productId: int, stock: nat, uid: string, w: World)
    returns (moves: seq<Move>, k: int)
    requires Fair(c, y, 1) && y.consumer.workers != [] && y.consumer.ledger.drafted == {}
    requires |y.round.stream| == 1 && y.round.stream[0].uid == uid && uid != "" && uid != "<nil>"
    requires y.round.productId == Some(productId) && y.terms == Terms(productId, stock, 0)
    requires c.productId != productId && Loops.Smooth(w)
    ensures MovesRun(c, y, moves) && WronglyOrdered(EndToEnd.Outcome(c, y, moves), productId, uid, k)
  {
    var f;
    moves, f := RoundsCanBeDrained(c, y, w, 1);
    k := OrderOfBuyer(c, y, moves, f, uid);
  }

  lemma MovesCons(c: Config, y: System, m: Move, rest: seq<Move>)
    requires Possible(y, m) && MovesRun(c, Moved(c, y, m), rest)
    ensures MovesRun(c, y, [m] + rest)
    ensures EndToEnd.Outcome(c, y, [m] + rest) == EndToEnd.Outcome(c, Moved(c, y, m), rest)
  {
    assert ([m] + rest)[1..] == rest;
  }

  lemma OrderOfBuyer(c: Config, y: System, moves: seq<Move>, f: System, uid: string) returns (k: int)
    requires Fair(c, y, 1) && Drains(c, y, moves, f, 1) && f.terms.base == 0
    requires f.round.stream != [] && f.round.stream[0].uid == uid && c.productId != f.terms.productId
    ensures OrderOf(f.consumer.ledger, OpenSpan(f), uid, k)
    ensures f.consumer.ledger.orders[k].productId != f.terms.productId
  {
    RunKeepsFair(c, y, moves, 1);
    NonZeroKeys(f.round.stream, 1);
    assert Spans(f)[|f.past|] == OpenSpan(f);
    BuyersGetTheirOrder(c, y, moves, f, 1, OpenSpan(f), uid);
    assert HasBought(f.round.stream, OpenSpan(f), uid);
    k :| OrderOf(f.consumer.ledger, OpenSpan(f), uid, k);
    OrderProductIff(c, y, moves, f, OpenSpan(f), k);
  }
}
