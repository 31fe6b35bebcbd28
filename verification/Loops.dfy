/** The two worker loops of internal/server/redis.go as code, each running alone: what one batch
    does to the pending list and the table, and what one full turn of the reclaim cursor achieves. */
module Loops {
  import opened Int64
  import opened Orders
  import opened Booking
  import opened StreamHash
  import opened Machine

  /** Table, events and consumer group between two messages. */
  datatype Progress = Progress(table: Table, events: seq<Event>, pending: set<nat>, acked: set<nat>)

  /** The loop body for one message: no uid, skip; handler error, keep pending; otherwise XACK. */
  function Handle(c: Config, e: Entry, pos: nat, world: World, ackFails: bool, p: Progress): Progress {
    if !HasUid(e) then p
    else
      var b := Booked(p.table, p.events, c.productId, e.uid, Hash(e.id), world, c.hash(e.uid));
      var p' := p.(table := b.table, events := b.events);
      if Acknowledges(b.result) && !ackFails then p'.(pending := p.pending - {pos}, acked := p.acked + {pos}) else p'
  }

  /** The loop over a batch; worlds and XACK failures are indexed by position. */
  function HandleAll(c: Config, stream: seq<Entry>, msgs: seq<nat>, world: nat -> World, ackFails: set<nat>,
                     p: Progress): Progress
    requires forall i :: 0 <= i < |msgs| ==> msgs[i] < |stream|
  {
    if msgs == [] then p
    else
      var q := HandleAll(c, stream, msgs[..|msgs| - 1], world, ackFails, p);
      var pos := msgs[|msgs| - 1];
      Handle(c, stream[pos], pos, world(pos), pos in ackFails, q)
  }

  lemma HandleNext(c: Config, stream: seq<Entry>, msgs: seq<nat>, world: nat -> World, ackFails: set<nat>,
                   p: Progress, i: nat)
    requires i < |msgs| && forall j :: 0 <= j < |msgs| ==> msgs[j] < |stream|
    ensures HandleAll(c, stream, msgs[..i + 1], world, ackFails, p)
         == Handle(c, stream[msgs[i]], msgs[i], world(msgs[i]), msgs[i] in ackFails,
                   HandleAll(c, stream, msgs[..i], world, ackFails, p))
  {
    assert msgs[..i + 1][..i] == msgs[..i];
  }

  /** Whether one message leaves the pending list. */
  predicate Confirmed(c: Config, e: Entry, world: World, table: Table) {
    HasUid(e) &&
    var draft := Draft(c.productId, e.uid, Hash(e.id), world, c.hash(e.uid));
    draft.Ok? && world.insert != Refused &&
    (Clashes(table, ToRow(draft.value)) || (world.insert == NoFault && world.publish == NoFault))
  }

  /** Exactly when the body acknowledges: the product was bookable, and the insert either met a
      unique constraint or went through together with the publish. */
  lemma AcknowledgedIff(c: Config, e: Entry, pos: nat, world: World, ackFails: bool, p: Progress)
    requires pos in p.pending && pos !in p.acked
    ensures var p' := Handle(c, e, pos, world, ackFails, p);
            (pos in p'.acked <==> pos !in p'.pending) &&
            (pos in p'.acked <==> Confirmed(c, e, world, p.table) && !ackFails)
  {
    if HasUid(e) {
      BookedAcks(p.table, p.events, c.productId, e.uid, Hash(e.id), world, c.hash(e.uid));
    }
  }

  lemma BookedAcks(t: Table, events: seq<Event>, productId: int, uid: string, key: int, world: World, hash: Word)
    ensures var draft := Draft(productId, uid, key, world, hash);
            Acknowledges(Booked(t, events, productId, uid, key, world, hash).result) <==>
            draft.Ok? && world.insert != Refused &&
            (Clashes(t, ToRow(draft.value)) || (world.insert == NoFault && world.publish == NoFault))
  {}

  /** A world without failures and with a bookable product. */
  predicate Smooth(world: World) {
    && OnSale(world.lookup)
    && world.insert == NoFault && world.publish == NoFault
  }

  /** An entry without a uid, or with the text that stands for a missing one, is passed over and stays pending;
      one with any other text is acknowledged if nothing fails. */
  lemma HandledByUid(c: Config, e: Entry, pos: nat, world: World, ackFails: bool, p: Progress)
    ensures e.uid == "" || e.uid == "<nil>" ==> Handle(c, e, pos, world, ackFails, p) == p
    ensures e.uid != "" && e.uid != "<nil>" && Smooth(world) && !ackFails ==>
              var q := Handle(c, e, pos, world, ackFails, p);
              q.pending == p.pending - {pos} && q.acked == p.acked + {pos}
  {
    if Smooth(world) {
      SmoothOne(c, e, pos, world, p);
    }
  }

  /** An order that the body adds is for the user of the entry and the product of the server, whatever product
      the entry carries, and under the folded id unless that is zero. */
  lemma HandledFor(c: Config, e: Entry, pos: nat, world: World, ackFails: bool, p: Progress, k: int)
    requires k in Handle(c, e, pos, world, ackFails, p).table && k !in p.table
    ensures var r := Handle(c, e, pos, world, ackFails, p).table[k];
            r.userId == e.uid && r.productId == c.productId && (Hash(e.id) != 0 ==> r.reqId == Hash(e.id))
  {
    NewRowIs(p.table, p.events, c.productId, e.uid, Hash(e.id), world, c.hash(e.uid), k);
  }

  /** With nothing failing a batch acknowledges precisely its entries with a uid. */
  lemma {:induction false} SmoothBatch(c: Config, stream: seq<Entry>, msgs: seq<nat>, world: nat -> World, p: Progress)
    requires forall i :: 0 <= i < |msgs| ==> msgs[i] < |stream|
    requires forall pos: nat :: Smooth(world(pos))
    ensures var q := HandleAll(c, stream, msgs, world, {}, p);
            && q.pending == p.pending - WithUid(stream, msgs)
            && q.acked == p.acked + WithUid(stream, msgs)
  {
    if msgs != [] {
      var rest, pos := msgs[..|msgs| - 1], msgs[|msgs| - 1];
      SmoothBatch(c, stream, rest, world, p);
      SmoothOne(c, stream[pos], pos, world(pos), HandleAll(c, stream, rest, world, {}, p));
      WithUidPush(stream, rest, pos);
      assert msgs == rest + [pos];
      Settle(p, HandleAll(c, stream, rest, world, {}, p), HandleAll(c, stream, msgs, world, {}, p),
             WithUid(stream, rest), Itself(stream[pos], pos));
    }
  }

  function Itself(e: Entry, pos: nat): set<nat> {
    if HasUid(e) then {pos} else {}
  }

  lemma Settle(p: Progress, q: Progress, r: Progress, xs: set<nat>, ys: set<nat>)
    requires q.pending == p.pending - xs && q.acked == p.acked + xs
    requires r.pending == q.pending - ys && r.acked == q.acked + ys
    ensures r.pending == p.pending - (xs + ys) && r.acked == p.acked + (xs + ys)
  {}

  lemma SmoothOne(c: Config, e: Entry, pos: nat, world: World, p: Progress)
    requires Smooth(world)
    ensures var q := Handle(c, e, pos, world, false, p);
            q.pending == p.pending - Itself(e, pos) && q.acked == p.acked + Itself(e, pos)
  {}

  function WithUid(stream: seq<Entry>, msgs: seq<nat>): set<nat> {
    set p | p in msgs && p < |stream| && stream[p].uid != "" && stream[p].uid != "<nil>"
  }

  lemma WithUidPush(stream: seq<Entry>, msgs: seq<nat>, pos: nat)
    requires pos < |stream|
    ensures WithUid(stream, msgs + [pos]) == WithUid(stream, msgs) + Itself(stream[pos], pos)
  {}

  lemma {:induction false} KeysStay(c: Config, stream: seq<Entry>, msgs: seq<nat>, world: nat -> World,
                                    ackFails: set<nat>, p: Progress)
    requires forall i :: 0 <= i < |msgs| ==> msgs[i] < |stream|
    requires WellKeyed(p.table)
    ensures WellKeyed(HandleAll(c, stream, msgs, world, ackFails, p).table)
  {
    if msgs != [] {
      var rest, pos := msgs[..|msgs| - 1], msgs[|msgs| - 1];
      KeysStay(c, stream, rest, world, ackFails, p);
      HandleKeepsKeys(c, stream[pos], pos, world(pos), pos in ackFails, HandleAll(c, stream, rest, world, ackFails, p));
    }
  }

  lemma HandleKeepsKeys(c: Config, e: Entry, pos: nat, world: World, ackFails: bool, p: Progress)
    requires WellKeyed(p.table)
    ensures WellKeyed(Handle(c, e, pos, world, ackFails, p).table)
  {
    var draft := Draft(c.productId, e.uid, Hash(e.id), world, c.hash(e.uid));
    if draft.Ok? {
      InsertKeepsKeys(p.table, ToRow(draft.value), world.insert);
    }
  }

  // ---------------------------------------------------------------------------------------------
  // XAUTOCLAIM over a list whose entries are all idle
  // ---------------------------------------------------------------------------------------------

  /** Up to n entries from the cursor on, and the cursor for the next call (0 stands for "0-0"). */
  function ClaimFrom(pending: set<nat>, start: nat, end: nat, n: nat): (seq<nat>, nat) {
    var all := Ascending(pending, start, end);
    if |all| <= n then (all, 0) else (all[..n], all[n])
  }

  lemma AscendingUnfold(ps: set<nat>, lo: nat, hi: nat)
    requires lo < hi
    ensures Ascending(ps, lo, hi) == (if lo in ps then [lo] else []) + Ascending(ps, lo + 1, hi)
  {}

  lemma {:induction false} AscendingSorted(ps: set<nat>, lo: nat, hi: nat, all: seq<nat>)
    requires all == Ascending(ps, lo, hi)
    ensures forall i, j :: 0 <= i < j < |all| ==> all[i] < all[j]
    decreases hi - lo
  {
    if lo < hi {
      var rest := Ascending(ps, lo + 1, hi);
      AscendingSorted(ps, lo + 1, hi, rest);
      AscendingUnfold(ps, lo, hi);
      SortedCons(lo, rest, all, lo in ps);
    }
  }

  lemma SortedCons(lo: nat, rest: seq<nat>, all: seq<nat>, first: bool)
    requires forall i, j :: 0 <= i < j < |rest| ==> rest[i] < rest[j]
    requires forall i :: 0 <= i < |rest| ==> lo < rest[i]
    requires all == (if first then [lo] else []) + rest
    ensures forall i, j :: 0 <= i < j < |all| ==> all[i] < all[j]
  {}

  /** Listing again from the n-th listed member gives the rest of the list. */
  lemma {:induction false} AscendingSuffix(ps: set<nat>, lo: nat, hi: nat, a: seq<nat>, n: nat)
    requires a == Ascending(ps, lo, hi) && n < |a|
    ensures Ascending(ps, a[n], hi) == a[n..]
    decreases hi - lo
  {
    var rest := Ascending(ps, lo + 1, hi);
    AscendingUnfold(ps, lo, hi);
    if lo !in ps {
      AscendingSuffix(ps, lo + 1, hi, rest, n);
    } else if n > 0 {
      AscendingSuffix(ps, lo + 1, hi, rest, n - 1);
      assert a[n..] == rest[n - 1..];
    }
  }

  lemma {:induction false} AscendingSame(ps: set<nat>, qs: set<nat>, lo: nat, hi: nat)
    requires forall p: nat :: lo <= p < hi ==> (p in ps <==> p in qs)
    ensures Ascending(ps, lo, hi) == Ascending(qs, lo, hi)
    decreases hi - lo
  {
    if lo < hi {
      AscendingSame(ps, qs, lo + 1, hi);
    }
  }

  lemma {:induction false} AscendingCount(ps: set<nat>, lo: nat, hi: nat)
    requires forall p :: p in ps ==> lo <= p < hi
    ensures |Ascending(ps, lo, hi)| == |ps|
    decreases hi - lo
  {
    if lo < hi {
      AscendingCount(ps - {lo}, lo + 1, hi);
      AscendingSame(ps, ps - {lo}, lo + 1, hi);
    } else {
      assert ps == {};
    }
  }

  function Bound(next: nat, end: nat): nat {
    if next == 0 then end else next
  }

  /** A claim takes every entry between the old cursor and the new one, n of them unless it reaches
      the end; `all` lists the entries from the old cursor on and `later` those from the new one on. */
  ghost predicate Claims(ps: set<nat>, start: nat, end: nat, n: nat, msgs: seq<nat>, next: nat, all: seq<nat>,
                         later: seq<nat>) {
    && (forall p :: p in msgs <==> p in ps && start <= p < Bound(next, end))
    && (next != 0 ==> start < next < end && |msgs| == n && later != [] && all == msgs + later)
    && (next == 0 ==> msgs == all && |msgs| <= n)
  }

  lemma ClaimCovers(ps: set<nat>, start: nat, end: nat, n: nat, msgs: seq<nat>, next: nat)
    requires n > 0 && (msgs, next) == ClaimFrom(ps, start, end, n)
    ensures Claims(ps, start, end, n, msgs, next, Ascending(ps, start, end), Ascending(ps, next, end))
  {
    var all := Ascending(ps, start, end);
    if |all| > n {
      AscendingSorted(ps, start, end, all);
      AscendingSuffix(ps, start, end, all, n);
      ClaimSome(ps, start, end, n, all);
    }
  }

  lemma ClaimSome(ps: set<nat>, start: nat, end: nat, n: nat, all: seq<nat>)
    requires 0 < n < |all| && (forall p: nat :: p in all <==> p in ps && start <= p < end)
    requires forall i, j :: 0 <= i < j < |all| ==> all[i] < all[j]
    ensures Claims(ps, start, end, n, all[..n], all[n], all, all[n..])
  {
    assert all[0] in all && all[n] in all;
    SortedPrefix(all, n);
    SortedAfterFirst(all, n, start);
    assert all == all[..n] + all[n..];
  }

  lemma ClaimBelow(ps: set<nat>, start: nat, end: nat, msgs: seq<nat>, next: nat)
    requires Claims(ps, start, end, BATCH, msgs, next, Ascending(ps, start, end), Ascending(ps, next, end))
    ensures forall i :: 0 <= i < |msgs| ==> msgs[i] < end
  {
    forall i | 0 <= i < |msgs| ensures msgs[i] < end {
      assert msgs[i] in msgs;
    }
  }

  lemma SortedPrefix(all: seq<nat>, n: nat)
    requires forall i, j :: 0 <= i < j < |all| ==> all[i] < all[j]
    requires n < |all|
    ensures forall p :: p in all[..n] <==> p in all && p < all[n]
  {
    forall p | p in all && p < all[n] ensures p in all[..n] {
      var i :| 0 <= i < |all| && all[i] == p;
      assert p == all[..n][i];
    }
  }

  lemma SortedAfterFirst(all: seq<nat>, n: nat, start: nat)
    requires forall i, j :: 0 <= i < j < |all| ==> all[i] < all[j]
    requires 0 < n < |all| && start <= all[0]
    ensures start < all[n]
  {}

  // ---------------------------------------------------------------------------------------------
  // Batch after batch
  // ---------------------------------------------------------------------------------------------

  predicate InBounds(stream: seq<Entry>, msgs: seq<nat>) {
    forall i :: 0 <= i < |msgs| ==> msgs[i] < |stream|
  }

  lemma {:induction false} HandleAllConcat(c: Config, stream: seq<Entry>, a: seq<nat>, b: seq<nat>,
                                           world: nat -> World, ackFails: set<nat>, p: Progress)
    requires InBounds(stream, a) && InBounds(stream, b)
    ensures HandleAll(c, stream, a + b, world, ackFails, p)
         == HandleAll(c, stream, b, world, ackFails, HandleAll(c, stream, a, world, ackFails, p))
  {
    if b == [] {
      assert a + b == a;
    } else {
      HandleAllConcat(c, stream, a, b[..|b| - 1], world, ackFails, p);
      assert (a + b)[..|a + b| - 1] == a + b[..|b| - 1];
    }
  }

  /** A batch leaves the other entries alone. */
  lemma {:induction false} HandleAllOthers(c: Config, stream: seq<Entry>, msgs: seq<nat>, world: nat -> World,
                                           ackFails: set<nat>,
                                           p: Progress, q: nat)
    requires InBounds(stream, msgs) && q !in msgs
    ensures q in HandleAll(c, stream, msgs, world, ackFails, p).pending <==> q in p.pending
  {
    if msgs != [] {
      HandleAllOthers(c, stream, msgs[..|msgs| - 1], world, ackFails, p, q);
    }
  }

  /** After the entries below the cursor have been handled, those from it on are listed as before. */
  lemma RestUntouched(c: Config, stream: seq<Entry>, done: seq<nat>, world: nat -> World, ackFails: set<nat>, p: Progress,
                      now: set<nat>, start: nat, end: nat)
    requires InBounds(stream, done) && (forall i :: 0 <= i < |done| ==> done[i] < start)
    requires now == HandleAll(c, stream, done, world, ackFails, p).pending
    ensures Ascending(now, start, end) == Ascending(p.pending, start, end)
  {
    forall q: nat | start <= q < end ensures q in now <==> q in p.pending {
      HandleAllOthers(c, stream, done, world, ackFails, p, q);
    }
    AscendingSame(now, p.pending, start, end);
  }

  /** The entries of one more claim extend those handled so far, all below the new cursor. */
  lemma Extends(ps: set<nat>, start: nat, end: nat, msgs: seq<nat>, next: nat, all: seq<nat>, later: seq<nat>,
                done: seq<nat>)
    requires Claims(ps, start, end, BATCH, msgs, next, all, later) && forall i :: 0 <= i < |done| ==> done[i] < start
    requires start <= Bound(next, end)
    ensures forall i :: 0 <= i < |done + msgs| ==> (done + msgs)[i] < Bound(next, end)
    ensures next != 0 ==> done + all == (done + msgs) + later
    ensures next == 0 ==> done + all == done + msgs
  {
    forall i | 0 <= i < |msgs| ensures msgs[i] < Bound(next, end) {
      assert msgs[i] in msgs;
    }
  }

  /** A turn in progress: `done` are the entries below the cursor, in full batches, and some are left. */
  ghost predicate Turning(ps: set<nat>, end: nat, done: seq<nat>, start: nat, rounds: nat) {
    && start <= end && (forall i :: 0 <= i < |done| ==> done[i] < start) && |done| == rounds * BATCH
    && Ascending(ps, 0, end) == done + Ascending(ps, start, end)
    && (rounds > 0 ==> Ascending(ps, start, end) != [])
  }

  lemma TurnStep(c: Config, stream: seq<Entry>, world: nat -> World, ackFails: set<nat>, p: Progress,
                 done: seq<nat>, ps: set<nat>,
                 start: nat, end: nat, rounds: nat, msgs: seq<nat>, next: nat)
    requires InBounds(stream, done) && Turning(p.pending, end, done, start, rounds)
    requires ps == HandleAll(c, stream, done, world, ackFails, p).pending
    requires Claims(ps, start, end, BATCH, msgs, next, Ascending(ps, start, end), Ascending(ps, next, end))
    ensures next != 0 ==> Turning(p.pending, end, done + msgs, next, rounds + 1)
    ensures next == 0 ==> Ascending(p.pending, 0, end) == done + msgs && Turn(rounds + 1, |done + msgs|)
  {
    RestUntouched(c, stream, done, world, ackFails, p, ps, start, end);
    if next != 0 {
      RestUntouched(c, stream, done, world, ackFails, p, ps, next, end);
    }
    Extends(ps, start, end, msgs, next, Ascending(ps, start, end), Ascending(ps, next, end), done);
  }

  /** With nothing failing, handling all pending entries leaves those without a uid. */
  lemma AllSettled(c: Config, stream: seq<Entry>, end: nat, world: nat -> World, p: Progress)
    requires end <= |stream| && (forall q :: q in p.pending ==> q < end) && forall pos: nat :: Smooth(world(pos))
    ensures var q := HandleAll(c, stream, Ascending(p.pending, 0, end), world, {}, p);
            && q.pending == (set x | x in p.pending && (stream[x].uid == "" || stream[x].uid == "<nil>"))
            && q.acked == p.acked + (set x | x in p.pending && stream[x].uid != "" && stream[x].uid != "<nil>")
  {
    var msgs := Ascending(p.pending, 0, end);
    SmoothBatch(c, stream, msgs, world, p);
    PendingWithUid(stream, p.pending, end, msgs);
  }

  lemma PendingWithUid(stream: seq<Entry>, pending: set<nat>, end: nat, msgs: seq<nat>)
    requires end <= |stream| && (forall q :: q in pending ==> q < end) && msgs == Ascending(pending, 0, end)
    ensures WithUid(stream, msgs) == set x | x in pending && stream[x].uid != "" && stream[x].uid != "<nil>"
    ensures pending - WithUid(stream, msgs) == set x | x in pending && (stream[x].uid == "" || stream[x].uid == "<nil>")
  {}

  // ---------------------------------------------------------------------------------------------
  // The loops
  // ---------------------------------------------------------------------------------------------

  class SeckillStreamServer {
    const c: Config
    const handler: OrderUsecase
    var stream: seq<Entry>
    var delivered: nat
    var pending: set<nat>
    var acked: set<nat>

    constructor (c: Config, handler: OrderUsecase)
      ensures this.c == c && this.handler == handler
      ensures stream == [] && delivered == 0 && pending == {} && acked == {}
    {
      this.c, this.handler := c, handler;
      stream, delivered, pending, acked := [], 0, {}, {};
    }

    /** XADD, done by the gateway. */
    method Xadd(e: Entry)
      requires Valid()
      modifies this`stream
      ensures Valid() && stream == old(stream) + [e]
    {
      stream := stream + [e];
    }

    ghost predicate Valid()
      reads this, handler, handler.repo
    {
      WellKeyed(handler.repo.rows) && delivered <= |stream| && forall p :: p in pending ==> p < delivered
    }

    function Now(): Progress
      reads this, handler, handler.repo
    {
      Progress(handler.repo.rows, handler.events, pending, acked)
    }

    /** The inner loop both workers share: handle each message of the batch, acknowledge on nil. */
    method HandleBatch(msgs: seq<nat>, world: nat -> World, ackFails: set<nat>)
      requires Valid() && forall i :: 0 <= i < |msgs| ==> msgs[i] < delivered
      modifies this`pending, this`acked, handler, handler.repo
      ensures Valid()
      ensures Now() == HandleAll(c, stream, msgs, world, ackFails, old(Now()))
    {
      assert msgs[..0] == [];
      for i := 0 to |msgs|
        invariant Valid()
        invariant Now() == HandleAll(c, stream, msgs[..i], world, ackFails, old(Now()))
      {
        var pos := msgs[i];
        var e := stream[pos];
        HandleNext(c, stream, msgs, world, ackFails, old(Now()), i);
        if HasUid(e) {
          var ok := handler.HandleSeckillOrder(c.productId, e.id, e.uid, world(pos), c.hash(e.uid));
          if ok && pos !in ackFails {
            pending := pending - {pos};
            acked := acked + {pos};
          }
        }
      }
      assert msgs[..|msgs|] == msgs;
    }

    /** One pass of `consumeLoop`: up to 128 new entries become pending and are handled. */
    method ConsumeOnce(world: nat -> World, ackFails: set<nat>)
      requires Valid()
      modifies this`delivered, this`pending, this`acked, handler, handler.repo
      ensures Valid() && delivered == if |stream| - old(delivered) <= 128 then |stream| else old(delivered) + 128
      ensures var batch := NewEntries(old(delivered), delivered);
              Now() == HandleAll(c, stream, batch, world, ackFails,
                                 old(Now()).(pending := old(pending) + (set p | p in batch)))
    {
      var n := if |stream| - delivered <= BATCH then |stream| - delivered else BATCH;
      var batch := NewEntries(delivered, delivered + n);
      pending := pending + (set p | p in batch);
      delivered := delivered + n;
      HandleBatch(batch, world, ackFails);
    }

    /** `reclaimLoop` with every pending entry idle, from "0-0" until the cursor is back there. Whatever
        fails on the way, one turn handles every pending entry once and in order, in ceil(n / 128) rounds
        for n > 0 entries. `AllSettled` says what that achieves when nothing fails. */
    method Sweep(world: nat -> World, ackFails: set<nat>) returns (rounds: nat)
      requires Valid()
      modifies this`pending, this`acked, handler, handler.repo
      ensures Valid() && Turn(rounds, |old(pending)|)
      ensures forall p :: p in old(pending) ==> p < delivered <= |stream|
      ensures Now() == HandleAll(c, stream, Ascending(old(pending), 0, delivered), world, ackFails, old(Now()))
    {
      var start := 0;
      rounds := 0;
      ghost var was, done: seq<nat> := Now(), [];
      AscendingCount(was.pending, 0, delivered);
      var running := true;
      while running
        invariant Valid() && InBounds(stream, done)
        invariant Now() == HandleAll(c, stream, done, world, ackFails, was)
        invariant running ==> Turning(was.pending, delivered, done, start, rounds)
        invariant !running ==> Ascending(was.pending, 0, delivered) == done && Turn(rounds, |done|)
        decreases running, delivered - start
      {
        start, done := NextRound(start, world, ackFails, was, done, rounds);
        rounds := rounds + 1;
        running := start != 0;
      }
    }

    /** A round of a turn in progress. */
    method NextRound(start: nat, world: nat -> World, ackFails: set<nat>, ghost was: Progress,
                     ghost done: seq<nat>, ghost rounds: nat)
      returns (next: nat, ghost done': seq<nat>)
      requires Valid() && InBounds(stream, done) && Turning(was.pending, delivered, done, start, rounds)
      requires Now() == HandleAll(c, stream, done, world, ackFails, was)
      modifies this`pending, this`acked, handler, handler.repo
      ensures Valid() && InBounds(stream, done') && Now() == HandleAll(c, stream, done', world, ackFails, was)
      ensures next != 0 ==> start < next && Turning(was.pending, delivered, done', next, rounds + 1)
      ensures next == 0 ==> Ascending(was.pending, 0, delivered) == done' && Turn(rounds + 1, |done'|)
    {
      ghost var ps := pending;
      var msgs;
      next, msgs := Round(start, world, ackFails);
      HandleAllConcat(c, stream, done, msgs, world, ackFails, was);
      TurnStep(c, stream, world, ackFails, was, done, ps, start, delivered, rounds, msgs, next);
      done' := done + msgs;
    }

    /** One claim and its batch, for every outcome of every call. */
    method Round(start: nat, world: nat -> World, ackFails: set<nat>) returns (next: nat, msgs: seq<nat>)
      requires Valid() && start <= delivered
      modifies this`pending, this`acked, handler, handler.repo
      ensures Valid() && InBounds(stream, msgs)
      ensures Now() == HandleAll(c, stream, msgs, world, ackFails, old(Now()))
      ensures Claims(old(pending), start, delivered, BATCH, msgs, next,
                     Ascending(old(pending), start, delivered), Ascending(old(pending), next, delivered))
    {
      var claim := ClaimFrom(pending, start, delivered, BATCH);
      msgs, next := claim.0, claim.1;
      ClaimCovers(pending, start, delivered, BATCH, msgs, next);
      ClaimBelow(pending, start, delivered, msgs, next);
      HandleBatch(msgs, world, ackFails);
    }
  }

  /** The rounds of a full turn over n entries: ceil(n / 128), but at least the one that finds
      nothing. */
  predicate Turn(rounds: nat, n: nat) {
    (rounds == 1 && n == 0) || (rounds > 0 && (rounds - 1) * 128 < n <= rounds * 128)
  }

  /** As many positions as there are, in order. */
  function NewEntries(from: nat, to: nat): (r: seq<nat>)
    requires from <= to
    ensures |r| == to - from && (forall i :: 0 <= i < |r| ==> from <= r[i] < to)
    ensures forall i, j :: 0 <= i < j < |r| ==> r[i] < r[j]
  {
    seq(to - from, (i: nat) => from + i)
  }
}
