/** Admission and booking together: the gateway sells the stock of one round after another into the
    stream while the consumer drains it, and the orders stored for a round never exceed what it sold. */
module EndToEnd {
  import opened Orders
  import opened StreamHash
  import opened Counting
  import opened Machine
  import Ledgers
  import opened Admission

  /** A round and where its entries end in the stream. */
  datatype Span = Span(terms: Terms, end: nat)

  /** The round that is open, the rounds before it, and the consumer. */
  datatype System = System(round: Round, terms: Terms, past: seq<Span>, consumer: State)

  /** A purchase request at the gateway, the opening of a new round, or a consumer step. */
  datatype Move = Buy(uid: string, id: Id) | Open(productId: int, stock: nat) | Consume(step: Step)

  /** Redis never assigns an id twice, and only the gateway appends. */
  predicate Possible(y: System, m: Move) {
    match m
    case Buy(uid, id) => Bought(y.round, uid, id).1.Sold? ==> Enabled(y.consumer, Append(SaleEntry(y, uid, id)))
    case Open(_, stock) => stock > 0
    case Consume(step) => !step.Append? && Enabled(y.consumer, step)
  }

  function SaleEntry(y: System, uid: string, id: Id): Entry {
    Entry(id, uid, Number(y.round.productId))
  }

  function Moved(c: Config, y: System, m: Move): System
    requires Possible(y, m)
  {
    match m
    case Buy(uid, id) =>
      var (round, answer) := Bought(y.round, uid, id);
      if answer.Sold? then y.(round := round, consumer := Apply(c, y.consumer, Append(SaleEntry(y, uid, id))))
      else y.(round := round)
    case Open(productId, stock) =>
      System(Opened(y.round, productId, stock), Terms(productId, stock, |y.round.stream|), y.past + [OpenSpan(y)],
             y.consumer)
    case Consume(step) => y.(consumer := Apply(c, y.consumer, step))
  }

  /** The open round, as far as it has got. */
  function OpenSpan(y: System): Span {
    Span(y.terms, |y.round.stream|)
  }

  /** All rounds, the open one last. */
  function Spans(y: System): seq<Span> {
    y.past + [OpenSpan(y)]
  }

  /** A round sold no more than its stock, each unit to someone else, and all of its own product. */
  ghost predicate SpanOk(stream: seq<Entry>, sp: Span) {
    && sp.terms.base <= sp.end <= |stream| && sp.end - sp.terms.base <= sp.terms.stock
    && (forall i :: sp.terms.base <= i < sp.end ==> stream[i].productId == sp.terms.productId)
    && (forall i, j :: sp.terms.base <= i < j < sp.end ==> stream[i].uid != stream[j].uid)
  }

  /** Rounds follow one another without a gap. */
  ghost predicate Adjoining(spans: seq<Span>) {
    spans != [] && spans[0].terms.base == 0 &&
    forall i :: 0 <= i < |spans| - 1 ==> spans[i].end == spans[i + 1].terms.base
  }

  ghost predicate Inv(c: Config, y: System) {
    && Sound(y.round, y.terms) && Ledgers.Inv(c, y.consumer) && y.round.stream == y.consumer.group.stream
    && (forall i :: 0 <= i < |y.past| ==> SpanOk(y.round.stream, y.past[i]))
    && Adjoining(Spans(y))
  }

  /** The first round opens over an empty stream. */
  function Opening(productId: int, stock: nat, s: State): System {
    System(Opened(Cleared(), productId, stock), Terms(productId, stock, 0), [], s)
  }

  lemma OpeningInv(c: Config, s: State, productId: int, stock: nat)
    requires Initial(s)
    ensures Inv(c, Opening(productId, stock, s))
  {
    OpenedIsSound(Cleared(), productId, stock);
    Ledgers.InitialInv(c, s);
  }

  lemma OpenSpanOk(r: Round, t: Terms)
    requires Sound(r, t)
    ensures SpanOk(r.stream, Span(t, |r.stream|))
  {
    forall i | t.base <= i < |r.stream| ensures r.stream[i].productId == t.productId {
      assert EntryOk(r, t, i);
    }
    forall i, j | t.base <= i < j < |r.stream| ensures r.stream[i].uid != r.stream[j].uid {
      assert EntryOk(r, t, i) && EntryOk(r, t, j);
    }
  }

  lemma SpansOk(c: Config, y: System, sp: Span)
    requires Inv(c, y) && sp in Spans(y)
    ensures SpanOk(y.round.stream, sp)
  {
    OpenSpanOk(y.round, y.terms);
  }

  lemma GrowthKeepsSpan(stream: seq<Entry>, stream': seq<Entry>, sp: Span)
    requires SpanOk(stream, sp) && stream <= stream'
    ensures SpanOk(stream', sp)
  {
    assert forall i :: 0 <= i < |stream| ==> stream'[i] == stream[i];
  }

  lemma MoveKeeps(c: Config, y: System, m: Move)
    requires Inv(c, y) && Possible(y, m)
    ensures Inv(c, Moved(c, y, m))
  {
    match m
    case Buy(uid, id) => BuyKeeps(c, y, uid, id);
    case Open(productId, stock) => OpenKeeps(c, y, productId, stock);
    case Consume(step) =>
      Ledgers.StepKeeps(c, y.consumer, step);
      StreamStays(c, y.consumer, step);
  }

  lemma StreamStays(c: Config, s: State, step: Step)
    requires Enabled(s, step) && !step.Append?
    ensures NewGroup(s, step).stream == s.group.stream
  {}

  lemma BuyKeeps(c: Config, y: System, uid: string, id: Id)
    requires Inv(c, y) && Possible(y, Buy(uid, id))
    ensures Inv(c, Moved(c, y, Buy(uid, id)))
  {
    BoughtKeeps(y.round, y.terms, uid, id);
    if Bought(y.round, uid, id).1.Sold? {
      Ledgers.StepKeeps(c, y.consumer, Append(SaleEntry(y, uid, id)));
      var stream' := Bought(y.round, uid, id).0.stream;
      forall i | 0 <= i < |y.past| ensures SpanOk(stream', y.past[i]) {
        GrowthKeepsSpan(y.round.stream, stream', y.past[i]);
      }
    }
    AdjoiningStays(y, Moved(c, y, Buy(uid, id)));
  }

  lemma AdjoiningStays(y: System, y': System)
    requires Adjoining(Spans(y)) && y'.past == y.past && y'.terms == y.terms
    ensures Adjoining(Spans(y'))
  {
    assert forall i :: 0 <= i <= |y.past| ==> Spans(y')[i].terms == Spans(y)[i].terms;
    forall i | 0 <= i < |Spans(y')| - 1 ensures Spans(y')[i].end == Spans(y')[i + 1].terms.base {
      assert Spans(y')[i] == Spans(y)[i];
    }
  }

  lemma OpenKeeps(c: Config, y: System, productId: int, stock: nat)
    requires Inv(c, y) && stock > 0
    ensures Inv(c, Moved(c, y, Open(productId, stock)))
  {
    var y' := Moved(c, y, Open(productId, stock));
    OpenedIsSound(y.round, productId, stock);
    OpenSpanOk(y.round, y.terms);
    assert Spans(y') == Spans(y) + [OpenSpan(y')];
    forall i | 0 <= i < |Spans(y')| - 1 ensures Spans(y')[i].end == Spans(y')[i + 1].terms.base {
      assert Spans(y')[i] == Spans(y)[i];
      assert i + 1 < |Spans(y)| ==> Spans(y')[i + 1] == Spans(y)[i + 1];
    }
    assert Spans(y')[0] == Spans(y)[0];
  }

  predicate MovesRun(c: Config, y: System, moves: seq<Move>)
    decreases |moves|
  {
    moves == [] || (Possible(y, moves[0]) && MovesRun(c, Moved(c, y, moves[0]), moves[1..]))
  }

  function Outcome(c: Config, y: System, moves: seq<Move>): System
    requires MovesRun(c, y, moves)
    decreases |moves|
  {
    if moves == [] then y else Outcome(c, Moved(c, y, moves[0]), moves[1..])
  }

  lemma {:induction false} RunKeeps(c: Config, y: System, moves: seq<Move>)
    requires Inv(c, y) && MovesRun(c, y, moves)
    ensures Inv(c, Outcome(c, y, moves))
    decreases |moves|
  {
    if moves != [] {
      MoveKeeps(c, y, moves[0]);
      RunKeeps(c, Moved(c, y, moves[0]), moves[1..]);
    }
  }

  // ---------------------------------------------------------------------------------------------
  // Every sale belongs to a round
  // ---------------------------------------------------------------------------------------------

  lemma SaleHasSpan(c: Config, y: System, p: nat) returns (sp: Span)
    requires Inv(c, y) && p < |y.round.stream|
    ensures sp in Spans(y) && sp.terms.base <= p < sp.end
  {
    var i := SpanAt(Spans(y), p, |Spans(y)| - 1);
    sp := Spans(y)[i];
  }

  lemma {:induction false} SpanAt(spans: seq<Span>, p: nat, last: nat) returns (i: nat)
    requires Adjoining(spans) && last < |spans| && p < spans[last].end
    ensures i < |spans| && spans[i].terms.base <= p < spans[i].end
  {
    i := last;
    if p < spans[last].terms.base {
      assert spans[last - 1].end == spans[last - 1 + 1].terms.base;
      i := SpanAt(spans, p, last - 1);
    }
  }

  // ---------------------------------------------------------------------------------------------
  // No oversell
  // ---------------------------------------------------------------------------------------------

  /** The stored orders of messages of a round. */
  function RoundRows(l: Ledger, sp: Span): set<int> {
    set k | k in l.owner && l.owner[k].Message? && sp.terms.base <= l.owner[k].pos < sp.end
  }

  /** A round's order is made for its message, and a message has one order. */
  lemma RowOfRound(c: Config, stream: seq<Entry>, l: Ledger, sp: Span, k: int)
    requires Ledgers.LedgerOk(c, stream, l) && KeysNonZero(stream) && k in RoundRows(l, sp)
    ensures k in l.orders && sp.terms.base <= l.owner[k].pos < sp.end && l.owner[k].pos < |stream| &&
            l.owner[k].pos in l.bookedAs && l.bookedAs[l.owner[k].pos] == k &&
            Ledgers.MadeFor(c, stream, l.owner[k], l.orders[k])
  {
    var j := l.bookedAs[l.owner[k].pos];
    assert Ledgers.MadeFor(c, stream, l.owner[j], l.orders[j]);
    assert Ledgers.MadeFor(c, stream, l.owner[k], l.orders[k]);
    assert HasKey(l.orders[j], l.orders[k].productId, l.orders[k].reqId);
  }

  /** The order of the i-th entry from `base` on, counting from 1. */
  function RowAt(l: Ledger, base: nat, i: int): int {
    var p := base + i - 1;
    if p >= 0 && p in l.bookedAs then l.bookedAs[p] else 0
  }

  function RowsAt(l: Ledger, base: nat, places: set<int>): set<int> {
    set i | i in places :: RowAt(l, base, i)
  }

  lemma {:induction false} RowsAtCount(l: Ledger, base: nat, places: set<int>)
    ensures |RowsAt(l, base, places)| <= |places|
  {
    if places != {} {
      var i := Member(places);
      var rest := places - {i};
      RowsAtCount(l, base, rest);
      assert RowsAt(l, base, places) == RowsAt(l, base, rest) + {RowAt(l, base, i)};
    }
  }

  /** A round has at most as many orders as entries. */
  lemma RowsWithinSpan(c: Config, stream: seq<Entry>, l: Ledger, sp: Span)
    requires Ledgers.LedgerOk(c, stream, l) && KeysNonZero(stream) && sp.terms.base <= sp.end
    ensures |RoundRows(l, sp)| <= sp.end - sp.terms.base
  {
    var n := sp.end - sp.terms.base;
    UptoCount(n);
    RowsAtCount(l, sp.terms.base, Upto(n));
    forall k | k in RoundRows(l, sp) ensures k in RowsAt(l, sp.terms.base, Upto(n)) {
      RowIsThere(c, stream, l, sp, k, Upto(n));
    }
    SubsetCount(RoundRows(l, sp), RowsAt(l, sp.terms.base, Upto(n)));
  }

  lemma RowIsThere(c: Config, stream: seq<Entry>, l: Ledger, sp: Span, k: int, places: set<int>)
    requires Ledgers.LedgerOk(c, stream, l) && KeysNonZero(stream) && k in RoundRows(l, sp)
    requires forall i :: 1 <= i <= sp.end - sp.terms.base ==> i in places
    ensures k in RowsAt(l, sp.terms.base, places)
  {
    RowOfRound(c, stream, l, sp, k);
    var i := l.owner[k].pos - sp.terms.base + 1;
    assert i in places && RowAt(l, sp.terms.base, i) == k;
  }

  /** The orders booked for a round, the open one or any before it, never outnumber the units it sold,
      hence never its stock. */
  lemma NoOversell(c: Config, y0: System, moves: seq<Move>, y: System, sp: Span)
    requires Inv(c, y0) && MovesRun(c, y0, moves) && y == Outcome(c, y0, moves)
    requires KeysNonZero(y.round.stream) && sp in Spans(y)
    ensures |RoundRows(y.consumer.ledger, sp)| <= sp.end - sp.terms.base <= sp.terms.stock
    ensures Sound(y.round, y.terms) && OpenSpan(y).end - y.terms.base == y.terms.stock - y.round.stock.value
  {
    RunKeeps(c, y0, moves);
    SpansOk(c, y, sp);
    RowsWithinSpan(c, y.round.stream, y.consumer.ledger, sp);
  }

  /** Within a round a buyer gets at most one order. */
  lemma OneOrderPerBuyer(c: Config, y0: System, moves: seq<Move>, y: System, sp: Span, j: int, k: int)
    requires Inv(c, y0) && MovesRun(c, y0, moves) && y == Outcome(c, y0, moves)
    requires KeysNonZero(y.round.stream) && sp in Spans(y)
    requires j in RoundRows(y.consumer.ledger, sp) && k in RoundRows(y.consumer.ledger, sp)
    requires j in y.consumer.ledger.orders && k in y.consumer.ledger.orders
    requires y.consumer.ledger.orders[j].userId == y.consumer.ledger.orders[k].userId
    ensures j == k
  {
    RunKeeps(c, y0, moves);
    SpansOk(c, y, sp);
    SameBuyer(c, y.round.stream, y.consumer.ledger, sp, j, k);
  }

  lemma SameBuyer(c: Config, stream: seq<Entry>, l: Ledger, sp: Span, j: int, k: int)
    requires Ledgers.LedgerOk(c, stream, l) && KeysNonZero(stream) && SpanOk(stream, sp)
    requires j in RoundRows(l, sp) && k in RoundRows(l, sp) && j in l.orders && k in l.orders
    requires l.orders[j].userId == l.orders[k].userId
    ensures j == k
  {
    RowOfRound(c, stream, l, sp, j);
    RowOfRound(c, stream, l, sp, k);
  }

  /** The consumer ignores the product a message was sold for: a round's orders are for the product
      of the round exactly when the server was started for that product. */
  lemma OrderProductIff(c: Config, y0: System, moves: seq<Move>, y: System, sp: Span, k: int)
    requires Inv(c, y0) && MovesRun(c, y0, moves) && y == Outcome(c, y0, moves)
    requires KeysNonZero(y.round.stream) && sp in Spans(y) && k in RoundRows(y.consumer.ledger, sp)
    ensures k in y.consumer.ledger.orders
    ensures y.consumer.ledger.orders[k].productId == sp.terms.productId <==> c.productId == sp.terms.productId
  {
    RunKeeps(c, y0, moves);
    RowOfRound(c, y.round.stream, y.consumer.ledger, sp, k);
  }
}
