/** When every acknowledged message has its own order.

    The handler takes any unique violation for "already booked", so a message can be acknowledged
    without an order when its attempt collides with somebody else's row. This module says what rules
    that out and proves that every step then keeps acknowledged messages booked. */
module Exactness {
  import opened Orders
  import opened StreamHash
  import opened Machine
  import Ledgers

  /** A purchase keeps clear of the keys of messages: another product, or a key below `floor`. */
  predicate Clear(c: Config, row: Row, floor: int) {
    row.productId != c.productId || row.reqId < floor
  }

  /** No other job has drawn this order id. */
  predicate FreshFor(drafted: set<(Row, Job)>, id: int, job: Job) {
    forall d :: d in drafted && d.0.orderId == id ==> d.1 == job
  }

  /** Messages arrive with distinct keys from `floor` upwards, no two jobs draw the same order id, and
      purchases keep clear. A job may well draw an id again, as two workers that handle one message
      in the same millisecond do. */
  predicate Disciplined(c: Config, s: State, step: Step, floor: int)
    requires Enabled(s, step)
  {
    && (step.Append? ==>
          Hash(step.entry.id) >= floor &&
          forall p :: 0 <= p < |s.group.stream| ==> Hash(s.group.stream[p].id) != Hash(step.entry.id))
    && (step.Prepare? ==>
          var job := s.workers[step.w].pc.job;
          var draft := DraftOf(c, s.group.stream, job, step.world);
          draft.Ok? ==>
            FreshFor(s.ledger.drafted, draft.value.id, job) && (job.Purchase? ==> Clear(c, ToRow(draft.value), floor)))
  }

  ghost predicate KeysOk(stream: seq<Entry>, floor: int) {
    && floor > 0
    && (forall p :: 0 <= p < |stream| ==> Hash(stream[p].id) >= floor)
    && (forall p, q :: 0 <= p < q < |stream| ==> Hash(stream[p].id) != Hash(stream[q].id))
  }

  /** Every order id belongs to one job. */
  ghost predicate OneJobEach(drafted: set<(Row, Job)>) {
    forall d, e :: d in drafted && e in drafted && d.0.orderId == e.0.orderId ==> d.1 == e.1
  }

  ghost predicate ForeignOk(c: Config, l: Ledger, workers: seq<Worker>, floor: int) {
    && (forall k :: k in l.owner && k in l.orders && l.owner[k].Purchase? ==> Clear(c, l.orders[k], floor))
    && (forall w :: 0 <= w < |workers| ==> ForeignPc(c, workers[w].pc, floor))
  }

  predicate ForeignPc(c: Config, pc: Pc, floor: int) {
    pc.Inserting? && pc.job.Purchase? ==> Clear(c, pc.row, floor)
  }

  /** Messages whose handler has returned nil, and those whose row is in their worker's hands. */
  predicate BookedPc(l: Ledger, pc: Pc) {
    && (pc.Acking? ==> pc.pos in l.bookedAs)
    && (pc.Publishing? && pc.job.Message? ==> pc.job.pos in l.bookedAs)
  }

  ghost predicate AcceptedOk(g: Group, l: Ledger, workers: seq<Worker>) {
    && (forall p :: p in g.acked ==> p in l.bookedAs)
    && (forall w :: 0 <= w < |workers| ==> BookedPc(l, workers[w].pc))
  }

  ghost predicate Inv(c: Config, s: State, floor: int) {
    && Ledgers.Inv(c, s)
    && KeysOk(s.group.stream, floor)
    && OneJobEach(s.ledger.drafted)
    && ForeignOk(c, s.ledger, s.workers, floor)
    && AcceptedOk(s.group, s.ledger, s.workers)
  }

  lemma InitialInv(c: Config, s: State, floor: int)
    requires Initial(s) && floor > 0
    ensures Inv(c, s, floor)
  {
    Ledgers.InitialInv(c, s);
  }

  // ---------------------------------------------------------------------------------------------
  // The one step that matters: a unique violation met by a message
  // ---------------------------------------------------------------------------------------------

  /** Under the discipline the row a message's insert collides with is the message's own. */
  lemma ViolationIsOwn(c: Config, s: State, floor: int, w: nat)
    requires Inv(c, s, floor) && w < |s.workers|
    requires s.workers[w].pc.Inserting? && s.workers[w].pc.job.Message?
    requires Clashes(s.ledger.orders, s.workers[w].pc.row)
    ensures s.workers[w].pc.job.pos in s.ledger.bookedAs
  {
    var pc, l, stream := s.workers[w].pc, s.ledger, s.group.stream;
    assert Ledgers.PcTied(c, stream, l, w, pc);
    if pc.row.orderId in l.orders {
      assert Ledgers.DraftedFor(l, l.owner[pc.row.orderId], l.orders[pc.row.orderId]);
      return;
    }
    var k :| k in l.orders && HasKey(l.orders[k], pc.row.productId, pc.row.reqId);
    assert Ledgers.MadeFor(c, stream, l.owner[k], l.orders[k]);
    if l.owner[k].Message? {
      SameKeySamePosition(stream, floor, l.owner[k].pos, pc.job.pos);
    }
  }

  lemma SameKeySamePosition(stream: seq<Entry>, floor: int, p: nat, q: nat)
    requires KeysOk(stream, floor) && p < |stream| && q < |stream|
    ensures Hash(stream[p].id) >= floor && Hash(stream[q].id) >= floor
    ensures Hash(stream[p].id) == Hash(stream[q].id) ==> p == q
  {}

  // ---------------------------------------------------------------------------------------------
  // Preservation
  // ---------------------------------------------------------------------------------------------

  lemma KeysKeep(c: Config, s: State, step: Step, floor: int)
    requires KeysOk(s.group.stream, floor) && Enabled(s, step) && Disciplined(c, s, step, floor)
    ensures KeysOk(NewGroup(s, step).stream, floor)
  {}

  /** A step other than an insert leaves rows, owners and bookings alone. */
  lemma QuietLedger(c: Config, s: State, step: Step)
    requires Enabled(s, step) && !step.Insert?
    ensures var l, l' := s.ledger, NewLedger(c, s, step);
            l'.orders == l.orders && l'.owner == l.owner && l'.bookedAs == l.bookedAs 
    ensures !step.Prepare? ==> NewLedger(c, s, step).drafted == s.ledger.drafted
  {
    if step.Publish? {
      var pc := s.workers[step.w].pc;
      PublishLedger(s.ledger, pc.job, pc.row, step.fault);
    }
  }

  lemma PublishLedger(l: Ledger, job: Job, row: Row, fault: Fault)
    ensures var l' := LedgerPublish(l, job, row, fault);
            l'.orders == l.orders && l'.owner == l.owner && l'.bookedAs == l.bookedAs && l'.drafted == l.drafted
  {}

  lemma InsertLedger(l: Ledger, w: nat, job: Job, row: Row, fault: Fault)
    ensures var l' := LedgerInsert(l, w, job, row, fault);
            l'.drafted == l.drafted && l'.orders.Keys <= l.orders.Keys + {row.orderId} && l.bookedAs.Keys <= l'.bookedAs.Keys
  {}

  lemma FreshKeeps(c: Config, s: State, step: Step, floor: int)
    requires Enabled(s, step) && Disciplined(c, s, step, floor) && OneJobEach(s.ledger.drafted)
    ensures OneJobEach(NewLedger(c, s, step).drafted)
  {
    if step.Insert? {
      var pc := s.workers[step.w].pc;
      InsertLedger(s.ledger, step.w, pc.job, pc.row, step.fault);
    } else if !step.Prepare? {
      QuietLedger(c, s, step);
    }
  }

  lemma InsertForeign(c: Config, l: Ledger, w: nat, job: Job, row: Row, fault: Fault, floor: int)
    requires forall k :: k in l.owner && k in l.orders && l.owner[k].Purchase? ==> Clear(c, l.orders[k], floor)
    requires job.Purchase? ==> Clear(c, row, floor)
    ensures var l' := LedgerInsert(l, w, job, row, fault);
            forall k :: k in l'.owner && k in l'.orders && l'.owner[k].Purchase? ==> Clear(c, l'.orders[k], floor)
  {}

  lemma ForeignKeeps(c: Config, s: State, step: Step, floor: int)
    requires Enabled(s, step) && Disciplined(c, s, step, floor) && ForeignOk(c, s.ledger, s.workers, floor)
    ensures ForeignOk(c, NewLedger(c, s, step), NewWorkers(c, s, step), floor)
  {
    if step.Insert? {
      var pc := s.workers[step.w].pc;
      assert ForeignPc(c, pc, floor);
      InsertForeign(c, s.ledger, step.w, pc.job, pc.row, step.fault, floor);
    } else {
      QuietLedger(c, s, step);
    }
    if Moves(step) {
      assert ForeignPc(c, s.workers[step.w].pc, floor);
      assert ForeignPc(c, NewWorker(c, s, step).pc, floor);
    }
  }

  /** A message's insert leaves the message booked whenever the worker goes on with it. */
  lemma InsertAccepts(c: Config, s: State, step: Step, floor: int)
    requires Inv(c, s, floor) && Enabled(s, step) && step.Insert?
    ensures BookedPc(NewLedger(c, s, step), NewWorker(c, s, step).pc)
  {
    var l, pc := s.ledger, s.workers[step.w].pc;
    InsertLedger(l, step.w, pc.job, pc.row, step.fault);
    if pc.job.Message? && Clashes(l.orders, pc.row) {
      ViolationIsOwn(c, s, floor, step.w);
    }
  }

  lemma AcceptedKeeps(c: Config, s: State, step: Step, floor: int)
    requires Inv(c, s, floor) && Enabled(s, step)
    ensures AcceptedOk(NewGroup(s, step), NewLedger(c, s, step), NewWorkers(c, s, step))
  {
    BookingsStay(c, s, step);
    OthersStay(s.ledger, NewLedger(c, s, step), s.workers);
    if step.Insert? {
      InsertAccepts(c, s, step, floor);
    } else if Moves(step) {
      MoverAccepts(c, s, step);
    }
    AckAccepts(s, step);
  }

  lemma OthersStay(l: Ledger, l': Ledger, workers: seq<Worker>)
    requires l.bookedAs.Keys <= l'.bookedAs.Keys
    requires forall u :: 0 <= u < |workers| ==> BookedPc(l, workers[u].pc)
    ensures forall u :: 0 <= u < |workers| ==> BookedPc(l', workers[u].pc)
  {
    forall u | 0 <= u < |workers| ensures BookedPc(l', workers[u].pc) {
      assert BookedPc(l, workers[u].pc);
    }
  }

  lemma MoverAccepts(c: Config, s: State, step: Step)
    requires Enabled(s, step) && Moves(step) && !step.Insert? && BookedPc(s.ledger, s.workers[step.w].pc)
    ensures BookedPc(NewLedger(c, s, step), NewWorker(c, s, step).pc)
  {
    BookingsStay(c, s, step);
  }

  lemma AckAccepts(s: State, step: Step)
    requires Enabled(s, step) && AcceptedOk(s.group, s.ledger, s.workers)
    ensures forall p :: p in NewGroup(s, step).acked ==> p in s.ledger.bookedAs
  {
    if step.Ack? {
      assert BookedPc(s.ledger, s.workers[step.w].pc);
    }
  }

  lemma BookingsStay(c: Config, s: State, step: Step)
    requires Enabled(s, step)
    ensures s.ledger.bookedAs.Keys <= NewLedger(c, s, step).bookedAs.Keys
  {
    if step.Insert? {
      var pc := s.workers[step.w].pc;
      InsertLedger(s.ledger, step.w, pc.job, pc.row, step.fault);
    } else {
      QuietLedger(c, s, step);
    }
  }

  lemma StepKeeps(c: Config, s: State, step: Step, floor: int)
    requires Inv(c, s, floor) && Enabled(s, step) && Disciplined(c, s, step, floor)
    ensures Inv(c, Apply(c, s, step), floor)
  {
    Ledgers.StepKeeps(c, s, step);
    KeysKeep(c, s, step, floor);
    FreshKeeps(c, s, step, floor);
    ForeignKeeps(c, s, step, floor);
    AcceptedKeeps(c, s, step, floor);
  }
}
