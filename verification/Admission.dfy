/** The state of one flash-sale round in Redis: internal/data/seckill.go, the checks of
    internal/biz/seckill.go, and the purchase script of tests/seckill.http as one atomic step. */
module Admission {
  import opened Orders
  import opened Counting
  import opened StreamHash
  import opened Machine

  /** seckill:stock, req:seq, uid2req, seckill:product_id and stream:orders. */
  datatype Round = Round(stock: Option<int>, reqSeq: Option<int>, uid2req: map<string, int>,
                         productId: Option<int>, stream: seq<Entry>)

  datatype Answer = Sold(reqId: int) | AlreadyPurchased | OutOfStock

  function Number(o: Option<int>): int {
    if o.Some? then o.value else 0
  }

  /** `InitSeckill` keeps the stream, on which the consumer group depends. */
  function Opened(r: Round, productId: int, stock: int): Round {
    Round(Some(stock), Some(0), map[], Some(productId), r.stream)
  }

  /** `ClearSeckill` deletes every key, the stream too. */
  function Cleared(): Round {
    Round(None, None, map[], None, [])
  }

  /** The script: DECR and INCR create the stock key when it is missing. */
  function Bought(r: Round, uid: string, id: Id): (Round, Answer) {
    if uid in r.uid2req then (r, AlreadyPurchased)
    else if Number(r.stock) - 1 < 0 then (r.(stock := Some(Number(r.stock))), OutOfStock)
    else
      var reqId := Number(r.reqSeq) + 1;
      (Round(Some(Number(r.stock) - 1), Some(reqId), r.uid2req[uid := reqId], r.productId,
             r.stream + [Entry(id, uid, Number(r.productId))]), Sold(reqId))
  }

  // ---------------------------------------------------------------------------------------------
  // The invariant of a round
  // ---------------------------------------------------------------------------------------------

  /** The round that opened with `stock` units of `productId` when the stream had `base` entries. */
  datatype Terms = Terms(productId: int, stock: nat, base: nat)

  function SoldCount(r: Round, t: Terms): int {
    |r.stream| - t.base
  }

  /** Units sold and units left add up to the initial stock; the buyers, their request numbers 1, 2,
      ... and the entries of this round correspond one to one. */
  ghost predicate Sound(r: Round, t: Terms) {
    && r.stock.Some? && r.reqSeq.Some? && r.productId == Some(t.productId)
    && t.base <= |r.stream|
    && r.stock.value >= 0
    && r.reqSeq.value == SoldCount(r, t)
    && r.stock.value + r.reqSeq.value == t.stock
    && (forall i :: t.base <= i < |r.stream| ==> EntryOk(r, t, i))
    && (forall u :: u in r.uid2req ==> BuyerOk(r, t, u))
  }

  predicate EntryOk(r: Round, t: Terms, i: nat)
    requires t.base <= i < |r.stream|
  {
    var e := r.stream[i];
    e.productId == t.productId && e.uid in r.uid2req && r.uid2req[e.uid] == i - t.base + 1
  }

  predicate BuyerOk(r: Round, t: Terms, u: string)
    requires u in r.uid2req && t.base <= |r.stream|
  {
    1 <= r.uid2req[u] <= SoldCount(r, t) && r.stream[t.base + r.uid2req[u] - 1].uid == u
  }

  lemma OpenedIsSound(r: Round, productId: int, stock: nat)
    ensures Sound(Opened(r, productId, stock), Terms(productId, stock, |r.stream|))
  {}

  /** A request sells exactly when the buyer is new and a unit is left, and keeps the round sound. */
  lemma BoughtKeeps(r: Round, t: Terms, uid: string, id: Id)
    requires Sound(r, t)
    ensures Sound(Bought(r, uid, id).0, t)
    ensures Bought(r, uid, id).1.Sold? <==> uid !in r.uid2req && r.stock.value > 0
    ensures Bought(r, uid, id).1 == AlreadyPurchased <==> uid in r.uid2req
    ensures Bought(r, uid, id).1 == OutOfStock <==> uid !in r.uid2req && r.stock.value == 0
    ensures !Bought(r, uid, id).1.Sold? ==> Bought(r, uid, id).0 == r
    ensures Bought(r, uid, id).1.Sold? ==>
              Bought(r, uid, id).1.reqId == SoldCount(Bought(r, uid, id).0, t) &&
              Bought(r, uid, id).0.stream == r.stream + [Entry(id, uid, t.productId)]
  {
    if uid !in r.uid2req && r.stock.value > 0 {
      SaleKeeps(r, t, uid, id);
    }
  }

  lemma SaleKeeps(r: Round, t: Terms, uid: string, id: Id)
    requires Sound(r, t) && uid !in r.uid2req && r.stock.value > 0
    ensures Sound(Bought(r, uid, id).0, t)
  {
    var r' := Bought(r, uid, id).0;
    forall i | t.base <= i < |r'.stream| ensures EntryOk(r', t, i) {
      if i < |r.stream| {
        assert r'.stream[i] == r.stream[i];
        assert EntryOk(r, t, i);
      }
    }
    forall u | u in r'.uid2req ensures BuyerOk(r', t, u) {
      if u != uid {
        assert BuyerOk(r, t, u);
      }
    }
  }

  /** Whatever the keys hold, also when no round is open: who is refused and why, and what a sale writes. A
      refusal for want of stock leaves a stock key behind, for DECR creates it. */
  lemma AnswerIs(r: Round, uid: string, id: Id)
    ensures var (r', answer) := Bought(r, uid, id);
            var left := if r.stock.Some? then r.stock.value else 0;
            && (answer == AlreadyPurchased <==> uid in r.uid2req)
            && (answer == OutOfStock <==> uid !in r.uid2req && left <= 0)
            && (answer == AlreadyPurchased ==> r' == r)
            && (answer == OutOfStock ==> r' == r.(stock := Some(left)))
            && (answer.Sold? ==>
                  && r'.stock == Some(left - 1) && r'.productId == r.productId
                  && answer.reqId == (if r.reqSeq.Some? then r.reqSeq.value else 0) + 1
                  && r'.reqSeq == Some(answer.reqId) && r'.uid2req == r.uid2req[uid := answer.reqId]
                  && r'.stream[..|r.stream|] == r.stream && |r'.stream| == |r.stream| + 1
                  && r'.stream[|r.stream|] == Entry(id, uid, if r.productId.Some? then r.productId.value else 0))
  {}

  /** Nobody has two entries in a round. */
  lemma BuyersDistinct(r: Round, t: Terms, i: nat, j: nat)
    requires Sound(r, t) && t.base <= i < |r.stream| && t.base <= j < |r.stream|
    requires r.stream[i].uid == r.stream[j].uid
    ensures i == j
  {
    assert EntryOk(r, t, i) && EntryOk(r, t, j);
  }

  // ---------------------------------------------------------------------------------------------
  // A whole round
  // ---------------------------------------------------------------------------------------------

  datatype Request = Request(uid: string, id: Id)

  function AllBought(r: Round, requests: seq<Request>): Round {
    if requests == [] then r
    else Bought(AllBought(r, requests[..|requests| - 1]), requests[|requests| - 1].uid, requests[|requests| - 1].id).0
  }

  function Buyers(requests: seq<Request>): set<string> {
    set i | 0 <= i < |requests| :: requests[i].uid
  }

  lemma BuyersPush(requests: seq<Request>)
    requires requests != []
    ensures Buyers(requests) == Buyers(requests[..|requests| - 1]) + {requests[|requests| - 1].uid}
  {
    var rest := requests[..|requests| - 1];
    forall u | u in Buyers(requests) ensures u in Buyers(rest) + {requests[|requests| - 1].uid} {
      var i :| 0 <= i < |requests| && requests[i].uid == u;
      assert i < |rest| ==> rest[i].uid == u;
    }
    forall u | u in Buyers(rest) ensures u in Buyers(requests) {
      var i :| 0 <= i < |rest| && rest[i].uid == u;
      assert requests[i].uid == u;
    }
  }

  /** However the requests arrive, the round sells to as many different people as asked, up to its
      stock, and to all of them unless it runs out. */
  lemma {:induction false} RoundSells(r: Round, t: Terms, requests: seq<Request>)
    requires Sound(r, t) && SoldCount(r, t) == 0
    ensures var r' := AllBought(r, requests);
            && Sound(r', t)
            && SoldCount(r', t) == Min(t.stock, |Buyers(requests)|)
            && r'.uid2req.Keys <= Buyers(requests)
            && |r'.uid2req| == SoldCount(r', t)
            && (r'.stock.value > 0 ==> r'.uid2req.Keys == Buyers(requests))
  {
    if requests == [] {
      assert r.uid2req.Keys == {};
    } else {
      var rest, last := requests[..|requests| - 1], requests[|requests| - 1];
      var q := AllBought(r, rest);
      RoundSells(r, t, rest);
      BoughtKeeps(q, t, last.uid, last.id);
      BuyersPush(requests);
      OneMore(q, t, last, Buyers(rest));
    }
  }

  lemma OneMore(q: Round, t: Terms, last: Request, asked: set<string>)
    requires Sound(q, t) && q.uid2req.Keys <= asked && |q.uid2req| == SoldCount(q, t) == Min(t.stock, |asked|)
    requires q.stock.value > 0 ==> q.uid2req.Keys == asked
    ensures var r' := Bought(q, last.uid, last.id).0; var now := asked + {last.uid};
            && r'.uid2req.Keys <= now
            && |r'.uid2req| == SoldCount(r', t) == Min(t.stock, |now|)
            && (Number(r'.stock) > 0 ==> r'.uid2req.Keys == now)
  {
    if last.uid in q.uid2req {
      assert asked + {last.uid} == asked;
    } else if q.stock.value > 0 {
      OneSale(q, t, last, asked);
    } else {
      SoldOut(q, t, last, asked);
    }
  }

  lemma SoldOut(q: Round, t: Terms, last: Request, asked: set<string>)
    requires Sound(q, t) && SoldCount(q, t) == Min(t.stock, |asked|) && q.stock.value == 0
    requires last.uid !in q.uid2req
    ensures Bought(q, last.uid, last.id).0 == q && Min(t.stock, |asked + {last.uid}|) == t.stock == SoldCount(q, t)
  {
    if last.uid in asked {
      assert asked + {last.uid} == asked;
    } else {
      assert |asked + {last.uid}| == |asked| + 1;
    }
  }

  lemma OneSale(q: Round, t: Terms, last: Request, asked: set<string>)
    requires Sound(q, t) && |q.uid2req| == SoldCount(q, t) == Min(t.stock, |asked|)
    requires last.uid !in q.uid2req && q.stock.value > 0 && q.uid2req.Keys == asked
    ensures var r' := Bought(q, last.uid, last.id).0; var now := asked + {last.uid};
            r'.uid2req.Keys == now && |r'.uid2req| == |now| == SoldCount(r', t) <= t.stock
  {
    var r' := Bought(q, last.uid, last.id).0;
    assert r'.uid2req.Keys == asked + {last.uid};
    assert |r'.uid2req| == |r'.uid2req.Keys| && |q.uid2req| == |q.uid2req.Keys|;
  }

  /** After `ClearSeckill` nothing sells, whoever asks and however often, until the next opening. */
  lemma {:induction false} ClosedSellsNothing(requests: seq<Request>, uid: string, id: Id)
    ensures var r := AllBought(Cleared(), requests);
            r.stream == [] && r.uid2req == map[] && Number(r.stock) == 0 && Bought(r, uid, id).1 == OutOfStock
  {
    if requests != [] {
      ClosedSellsNothing(requests[..|requests| - 1], requests[|requests| - 1].uid, requests[|requests| - 1].id);
    }
  }

  // ---------------------------------------------------------------------------------------------
  // The repository
  // ---------------------------------------------------------------------------------------------

  datatype Current = Active(productId: int, stock: int) | NoActiveSeckill | BadStock

  class SeckillRepo {
    var stock: Option<int>
    var reqSeq: Option<int>
    var uid2req: map<string, int>
    var productId: Option<int>
    var stream: seq<Entry>

    constructor ()
      ensures Now() == Cleared()
    {
      stock, reqSeq, uid2req, productId, stream := None, None, map[], None, [];
    }

    function Now(): Round
      reads this
    {
      Round(stock, reqSeq, uid2req, productId, stream)
    }

    /** The usecase refuses a stock that is not positive before the repository is touched. */
    method InitSeckill(newProduct: int, newStock: int) returns (ok: bool)
      modifies this
      ensures ok == (newStock > 0)
      ensures Now() == if ok then Opened(old(Now()), newProduct, newStock) else old(Now())
      ensures ok ==> stock == Some(newStock) && reqSeq == Some(0) && uid2req == map[] && productId == Some(newProduct)
      ensures stream == old(stream)
    {
      if newStock <= 0 {
        return false;
      }
      stock, reqSeq, uid2req, productId := None, None, map[], None;
      productId := Some(newProduct);
      stock := Some(newStock);
      reqSeq := Some(0);
      ok := true;
    }

    method ClearSeckill()
      modifies this
      ensures Now() == Cleared()
      ensures stock == None && reqSeq == None && uid2req == map[] && productId == None && stream == []
    {
      stock, reqSeq, uid2req, stream, productId := None, None, map[], [], None;
    }

    method Purchase(uid: string, id: Id) returns (answer: Answer)
      modifies this
      ensures (Now(), answer) == Bought(old(Now()), uid, id)
    {
      if uid in uid2req {
        return AlreadyPurchased;
      }
      stock := Some(Number(stock) - 1);
      if stock.value < 0 {
        stock := Some(stock.value + 1);
        return OutOfStock;
      }
      reqSeq := Some(Number(reqSeq) + 1);
      uid2req := uid2req[uid := reqSeq.value];
      stream := stream + [Entry(id, uid, Number(productId))];
      answer := Sold(reqSeq.value);
    }

    /** `GetCurrentSeckill`: a missing stock reads as zero, a missing product as no sale. */
    method GetCurrentSeckill() returns (current: Current)
      ensures current.Active? ==> productId == Some(current.productId) && current.stock == Number(stock)
      ensures current.NoActiveSeckill? <==> productId.None?
      ensures current.BadStock? <==> productId.Some? && !(-0x8000_0000 <= Number(stock) < 0x8000_0000)
    {
      if productId.None? {
        return NoActiveSeckill;
      }
      var left := Number(stock);
      if left < -0x8000_0000 || left >= 0x8000_0000 {
        return BadStock;
      }
      current := Active(productId.value, left);
    }
  }
}
