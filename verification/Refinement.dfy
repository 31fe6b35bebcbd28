/** The consumer refines "book each message at most once, announce it at most once and only when booked",
    and, for real stream ids and clocks, "acknowledge it only when booked" as well. */
module Refinement {
  import opened Int64
  import opened IdGenerators
  import opened Orders
  import opened Booking
  import opened StreamHash
  import opened RealIds
  import opened RealKeys
  import opened Machine
  import Ledgers
  import opened Exactness

  // ---------------------------------------------------------------------------------------------
  // The specification
  // ---------------------------------------------------------------------------------------------

  /** Messages with an order, with an announced order, and acknowledged ones. */
  datatype Spec = Spec(booked: set<nat>, notified: set<nat>, done: set<nat>)

  predicate Books(a: Spec, b: Spec, p: nat) {
    p !in a.booked && b == a.(booked := a.booked + {p})
  }

  predicate Notifies(a: Spec, b: Spec, p: nat) {
    p in a.booked && p !in a.notified && b == a.(notified := a.notified + {p})
  }

  predicate Finishes(a: Spec, b: Spec, p: nat) {
    b == a.(done := a.done + {p})
  }

  /** Each message is booked at most once, and announced at most once and only when booked. */
  ghost predicate SpecNext(a: Spec, b: Spec) {
    a == b || (exists p :: Books(a, b, p)) || (exists p :: Notifies(a, b, p)) || (exists p :: Finishes(a, b, p))
  }

  predicate SpecSafe(a: Spec) {
    a.notified <= a.booked
  }

  /** And only a booked message is finished. */
  ghost predicate ExactNext(a: Spec, b: Spec) {
    SpecNext(a, b) && b.done <= a.done + a.booked
  }

  predicate ExactSafe(a: Spec) {
    SpecSafe(a) && a.done <= a.booked
  }

  // ---------------------------------------------------------------------------------------------
  // Simulation
  // ---------------------------------------------------------------------------------------------

  predicate IsNotified(l: Ledger, p: nat) {
    p in l.bookedAs && l.bookedAs[p] in l.fate && l.fate[l.bookedAs[p]].Announced?
  }

  function Notified(l: Ledger): set<nat> {
    set p | p in l.bookedAs && IsNotified(l, p)
  }

  function Abs(s: State): Spec {
    Spec(s.ledger.bookedAs.Keys, Notified(s.ledger), s.group.acked)
  }

  /** What every run keeps up as long as no message has the key zero. */
  ghost predicate Keyed(c: Config, s: State) {
    Ledgers.Inv(c, s) && KeysNonZero(s.group.stream)
  }

  /** A message has one row: the one it is booked as. */
  lemma RowOfMessage(c: Config, s: State, k: int)
    requires Keyed(c, s) && k in s.ledger.owner && s.ledger.owner[k].Message?
    ensures s.ledger.owner[k].pos in s.ledger.bookedAs && s.ledger.bookedAs[s.ledger.owner[k].pos] == k
  {
    var l, stream := s.ledger, s.group.stream;
    var j := l.bookedAs[l.owner[k].pos];
    assert Ledgers.MadeFor(c, stream, l.owner[j], l.orders[j]);
    assert Ledgers.MadeFor(c, stream, l.owner[k], l.orders[k]);
    assert HasKey(l.orders[j], l.orders[k].productId, l.orders[k].reqId);
  }

  /** A booked message cannot be inserted again. */
  lemma BookedClashes(c: Config, s: State, w: nat)
    requires Keyed(c, s) && w < |s.workers|
    requires s.workers[w].pc.Inserting? && s.workers[w].pc.job.Message?
    requires s.workers[w].pc.job.pos in s.ledger.bookedAs
    ensures Clashes(s.ledger.orders, s.workers[w].pc.row)
  {
    var l, stream, pc := s.ledger, s.group.stream, s.workers[w].pc;
    var j := l.bookedAs[pc.job.pos];
    assert Ledgers.MadeFor(c, stream, l.owner[j], l.orders[j]);
    assert Ledgers.PcTied(c, stream, l, w, pc);
    assert HasKey(l.orders[j], pc.row.productId, pc.row.reqId);
  }

  lemma RecordNotified(l: Ledger, job: Job, row: Row, fate: Fate)
    requires row.orderId !in l.fate && !fate.Announced?
    requires job.Message? ==> job.pos !in l.bookedAs
    requires forall p :: p in l.bookedAs ==> l.bookedAs[p] in l.fate
    ensures Notified(Recorded(l, job, row, fate)) == Notified(l)
  {
    var l' := Recorded(l, job, row, fate);
    forall p | p in l'.bookedAs ensures IsNotified(l', p) <==> p in Notified(l) {
      if job.Message? && p == job.pos {
        assert !IsNotified(l', p);
      } else {
        assert l.bookedAs[p] != row.orderId;
      }
    }
  }

  lemma SettleNotified(l: Ledger, orderId: int)
    requires orderId in l.fate && l.fate[orderId].InFlight?
    ensures Notified(Settled(l, orderId, Lost)) == Notified(l)
  {}

  lemma AnnounceNotified(l: Ledger, job: Job, row: Row)
    requires row.orderId in l.fate && l.fate[row.orderId].InFlight?
    requires job.Message? ==> job.pos in l.bookedAs && l.bookedAs[job.pos] == row.orderId
    requires forall p :: p in l.bookedAs && l.bookedAs[p] == row.orderId ==> job == Message(p)
    ensures Notified(Announce(l, row)) == Notified(l) + (if job.Message? then {job.pos} else {})
    ensures job.Message? ==> job.pos !in Notified(l)
  {
    var l' := Announce(l, row);
    forall p | p in l.bookedAs ensures IsNotified(l', p) <==> p in Notified(l) || job == Message(p) {
    }
  }

  lemma InsertSimulates(c: Config, s: State, step: Step)
    requires Keyed(c, s) && Enabled(s, step) && step.Insert?
    ensures SpecNext(Abs(s), Abs(Apply(c, s, step)))
  {
    var l, pc := s.ledger, s.workers[step.w].pc;
    var a, b := Abs(s), Abs(Apply(c, s, step));
    if step.fault == Refused || Clashes(l.orders, pc.row) {
      assert a == b;
    } else {
      if pc.job.Message? && pc.job.pos in l.bookedAs {
        BookedClashes(c, s, step.w);
      }
      var fate := if step.fault == NoFault then InFlight(step.w) else Lost;
      RecordNotified(l, pc.job, pc.row, fate);
      if pc.job.Message? {
        assert Books(a, b, pc.job.pos);
      }
    }
  }

  lemma PublishSimulates(c: Config, s: State, step: Step)
    requires Keyed(c, s) && Enabled(s, step) && step.Publish?
    ensures SpecNext(Abs(s), Abs(Apply(c, s, step)))
  {
    var l, pc := s.ledger, s.workers[step.w].pc;
    var a, b := Abs(s), Abs(Apply(c, s, step));
    assert Ledgers.PcTied(c, s.group.stream, l, step.w, pc);
    if step.fault == Refused {
      SettleNotified(l, pc.row.orderId);
    } else {
      if pc.job.Message? {
        RowOfMessage(c, s, pc.row.orderId);
      }
      AnnounceNotified(l, pc.job, pc.row);
      assert b.notified == Notified(Announce(l, pc.row));
      if pc.job.Message? {
        assert Notifies(a, b, pc.job.pos);
      }
    }
  }

  lemma AckSimulates(c: Config, s: State, step: Step)
    requires Enabled(s, step) && step.Ack?
    ensures SpecNext(Abs(s), Abs(Apply(c, s, step)))
  {
    if step.fault != Refused {
      assert Finishes(Abs(s), Abs(Apply(c, s, step)), s.workers[step.w].pc.pos);
    }
  }

  lemma CrashSimulates(c: Config, s: State, step: Step)
    requires Keyed(c, s) && Enabled(s, step) && step.Crash?
    ensures Abs(s) == Abs(Apply(c, s, step))
  {
    var pc := s.workers[step.w].pc;
    assert Ledgers.PcTied(c, s.group.stream, s.ledger, step.w, pc);
    if pc.Publishing? {
      SettleNotified(s.ledger, pc.row.orderId);
    }
  }

  lemma OtherSimulates(c: Config, s: State, step: Step)
    requires Enabled(s, step) && !step.Insert? && !step.Publish? && !step.Ack? && !step.Crash?
    ensures Abs(s) == Abs(Apply(c, s, step))
  {}

  /** Every step of the consumer is a step of the specification or leaves it unchanged, whatever order ids
      are drawn, whichever keys are shared and whatever fails. */
  lemma StepSimulates(c: Config, s: State, step: Step)
    requires Keyed(c, s) && Enabled(s, step)
    ensures SpecNext(Abs(s), Abs(Apply(c, s, step)))
  {
    match step
    case Insert(_, _) => InsertSimulates(c, s, step);
    case Publish(_, _) => PublishSimulates(c, s, step);
    case Ack(_, _) => AckSimulates(c, s, step);
    case Crash(_) => CrashSimulates(c, s, step);
    case _ => OtherSimulates(c, s, step);
  }

  /** Under the discipline the step is one of the stricter specification. */
  lemma StepIsExact(c: Config, s: State, step: Step, floor: int)
    requires Inv(c, s, floor) && Enabled(s, step)
    ensures ExactNext(Abs(s), Abs(Apply(c, s, step)))
  {
    StepSimulates(c, s, step);
    if step.Ack? {
      assert BookedPc(s.ledger, s.workers[step.w].pc);
    }
  }

  // ---------------------------------------------------------------------------------------------
  // Whole runs
  // ---------------------------------------------------------------------------------------------

  /** No message with the key zero arrives. */
  predicate KeyedAppends(steps: seq<Step>) {
    forall i :: 0 <= i < |steps| && steps[i].Append? ==> Hash(steps[i].entry.id) != 0
  }

  /** Seen through `Abs`, the run is a safe run of the specification. */
  ghost predicate Follows(c: Config, s: State, steps: seq<Step>)
    requires Runs(c, s, steps)
    decreases |steps|
  {
    SpecSafe(Abs(s)) &&
    (steps == [] ||
     (SpecNext(Abs(s), Abs(Apply(c, s, steps[0]))) && Follows(c, Apply(c, s, steps[0]), steps[1..])))
  }

  lemma StepKeepsKeyed(c: Config, s: State, step: Step)
    requires Keyed(c, s) && Enabled(s, step) && (step.Append? ==> Hash(step.entry.id) != 0)
    ensures Keyed(c, Apply(c, s, step))
  {
    Ledgers.StepKeeps(c, s, step);
  }

  lemma {:induction false} RunRefines(c: Config, s: State, steps: seq<Step>)
    requires Keyed(c, s) && Runs(c, s, steps) && KeyedAppends(steps)
    ensures Follows(c, s, steps)
    decreases |steps|
  {
    if steps != [] {
      StepSimulates(c, s, steps[0]);
      StepKeepsKeyed(c, s, steps[0]);
      RunRefines(c, Apply(c, s, steps[0]), steps[1..]);
    }
  }

  /** Ids of up to three digits of sequence are enough for that: such runs book and announce each message at
      most once. */
  lemma OrdinaryRunsRefine(c: Config, s0: State, steps: seq<Step>)
    requires Initial(s0) && Runs(c, s0, steps)
    requires forall i :: 0 <= i < |steps| && steps[i].Append? ==> Ordinary(steps[i].entry.id)
    ensures Follows(c, s0, steps)
  {
    Ledgers.InitialInv(c, s0);
    forall i | 0 <= i < |steps| && steps[i].Append? ensures Hash(steps[i].entry.id) != 0 {
      OrdinaryKeyPositive(steps[i].entry.id);
    }
    RunRefines(c, s0, steps);
  }

  predicate DisciplinedRun(c: Config, s: State, steps: seq<Step>, floor: int)
    requires Runs(c, s, steps)
    decreases |steps|
  {
    steps == [] || (Disciplined(c, s, steps[0], floor) && DisciplinedRun(c, Apply(c, s, steps[0]), steps[1..], floor))
  }

  ghost predicate FollowsExactly(c: Config, s: State, steps: seq<Step>)
    requires Runs(c, s, steps)
    decreases |steps|
  {
    ExactSafe(Abs(s)) &&
    (steps == [] ||
     (ExactNext(Abs(s), Abs(Apply(c, s, steps[0]))) && FollowsExactly(c, Apply(c, s, steps[0]), steps[1..])))
  }

  /** A disciplined run follows the stricter specification: nothing is finished that is not booked. */
  lemma {:induction false} DisciplinedRefines(c: Config, s: State, steps: seq<Step>, floor: int)
    requires Inv(c, s, floor) && Runs(c, s, steps) && DisciplinedRun(c, s, steps, floor)
    ensures FollowsExactly(c, s, steps)
    ensures Inv(c, Final(c, s, steps), floor)
    decreases |steps|
  {
    if steps != [] {
      StepIsExact(c, s, steps[0], floor);
      Exactness.StepKeeps(c, s, steps[0], floor);
      DisciplinedRefines(c, Apply(c, s, steps[0]), steps[1..], floor);
    }
  }

  /** Every acknowledged message has exactly one order, made for its buyer. */
  ghost predicate BookedExactly(c: Config, s: State, pos: nat) {
    && pos < |s.group.stream|
    && pos in s.ledger.bookedAs
    && var k := s.ledger.bookedAs[pos];
       && k in s.ledger.orders && s.ledger.orders[k].orderId == k
       && Ledgers.MadeFor(c, s.group.stream, Message(pos), s.ledger.orders[k])
       && forall j :: j in s.ledger.owner && s.ledger.owner[j] == Message(pos) ==> j == k
  }

  lemma AckedIsBooked(c: Config, s0: State, steps: seq<Step>, floor: int, pos: nat)
    requires Initial(s0) && Runs(c, s0, steps) && floor > 0 && DisciplinedRun(c, s0, steps, floor)
    requires pos in Final(c, s0, steps).group.acked
    ensures BookedExactly(c, Final(c, s0, steps), pos)
  {
    var s := Final(c, s0, steps);
    Exactness.InitialInv(c, s0, floor);
    DisciplinedRefines(c, s0, steps, floor);
    forall j | j in s.ledger.owner && s.ledger.owner[j] == Message(pos) ensures j == s.ledger.bookedAs[pos] {
      RowOfMessage(c, s, j);
    }
  }

  // ---------------------------------------------------------------------------------------------
  // Real ids and clocks keep the discipline
  // ---------------------------------------------------------------------------------------------

  /** The lowest key of a sparse id. */
  const BAND: int := 296927614482052193

  /** Ten messages a millisecond at most, before 15 January 2027, drafts whose order id (time and user bits)
      no other job has drawn, and purchases, of any product, booked between the epoch and the year 2313. */
  predicate Calm(c: Config, s: State, step: Step)
    requires Enabled(s, step)
  {
    && (step.Append? ==> Sparse(step.entry.id))
    && (step.Prepare? ==>
          var job := s.workers[step.w].pc.job;
          var draft := DraftOf(c, s.group.stream, job, step.world);
          draft.Ok? ==> FreshFor(s.ledger.drafted, draft.value.id, job) &&
                        (job.Purchase? ==> 0 <= step.world.reqMs - EPOCH_MS < 9061511672425))
  }

  /** Up to a thousand messages a millisecond, while the product is not also sold directly. */
  predicate Busy(c: Config, s: State, step: Step)
    requires Enabled(s, step)
  {
    && (step.Append? ==> Ordinary(step.entry.id))
    && (step.Prepare? ==>
          var job := s.workers[step.w].pc.job;
          var draft := DraftOf(c, s.group.stream, job, step.world);
          draft.Ok? ==> FreshFor(s.ledger.drafted, draft.value.id, job) && (job.Purchase? ==> job.productId != c.productId))
  }

  predicate CalmRun(c: Config, s: State, steps: seq<Step>)
    requires Runs(c, s, steps)
    decreases |steps|
  {
    steps == [] || (Calm(c, s, steps[0]) && CalmRun(c, Apply(c, s, steps[0]), steps[1..]))
  }

  predicate BusyRun(c: Config, s: State, steps: seq<Step>)
    requires Runs(c, s, steps)
    decreases |steps|
  {
    steps == [] || (Busy(c, s, steps[0]) && BusyRun(c, Apply(c, s, steps[0]), steps[1..]))
  }

  ghost predicate AllSparse(stream: seq<Entry>) {
    forall p :: 0 <= p < |stream| ==> Sparse(stream[p].id)
  }

  ghost predicate AllOrdinary(stream: seq<Entry>) {
    forall p :: 0 <= p < |stream| ==> Ordinary(stream[p].id)
  }

  /** A purchase's invented key is an order id: small while the clock is. */
  lemma PurchaseKeyBelowBand(nowMs: int, hash: Word)
    requires 0 <= nowMs - EPOCH_MS < 9061511672425
    ensures OrderId(nowMs, hash) < BAND
  {
    OrderIdValue(nowMs, hash);
    StampInWindow(nowMs);
  }

  lemma AppendDistinct(s: State, step: Step)
    requires Enabled(s, step) && step.Append? && AllOrdinary(s.group.stream) && Ordinary(step.entry.id)
    ensures forall p :: 0 <= p < |s.group.stream| ==> Hash(s.group.stream[p].id) != Hash(step.entry.id)
  {
    forall p | 0 <= p < |s.group.stream| ensures Hash(s.group.stream[p].id) != Hash(step.entry.id) {
      OrdinaryKeysDistinct(s.group.stream[p].id, step.entry.id);
    }
  }

  lemma CalmAppend(c: Config, s: State, step: Step)
    requires Enabled(s, step) && step.Append? && Sparse(step.entry.id) && AllSparse(s.group.stream)
    ensures Disciplined(c, s, step, BAND)
  {
    AppendDistinct(s, step);
    OneDigitBand(step.entry.id);
  }

  lemma CalmDraft(c: Config, stream: seq<Entry>, job: Job, world: World)
    requires InStream(stream, job) && job.Purchase? && 0 <= world.reqMs - EPOCH_MS < 9061511672425
    ensures var draft := DraftOf(c, stream, job, world); draft.Ok? ==> Clear(c, ToRow(draft.value), BAND)
  {
    PurchaseKeyBelowBand(world.reqMs, c.hash(job.uid));
  }

  lemma CalmPrepare(c: Config, s: State, step: Step)
    requires Enabled(s, step) && step.Prepare? && Calm(c, s, step)
    ensures Disciplined(c, s, step, BAND)
  {
    var job := s.workers[step.w].pc.job;
    if job.Purchase? && 0 <= step.world.reqMs - EPOCH_MS < 9061511672425 {
      CalmDraft(c, s.group.stream, job, step.world);
    }
  }

  lemma CalmIsDisciplined(c: Config, s: State, step: Step)
    requires Enabled(s, step) && Calm(c, s, step) && AllSparse(s.group.stream)
    ensures Disciplined(c, s, step, BAND)
  {
    if step.Append? {
      CalmAppend(c, s, step);
    } else if step.Prepare? {
      CalmPrepare(c, s, step);
    }
  }

  lemma CalmStream(c: Config, s: State, step: Step)
    requires Enabled(s, step) && Calm(c, s, step) && AllSparse(s.group.stream)
    ensures AllSparse(NewGroup(s, step).stream)
  {}

  lemma BusyIsDisciplined(c: Config, s: State, step: Step)
    requires Enabled(s, step) && Busy(c, s, step) && AllOrdinary(s.group.stream)
    ensures Disciplined(c, s, step, 1) && AllOrdinary(NewGroup(s, step).stream)
  {
    if step.Append? {
      AppendDistinct(s, step);
      OrdinaryKeyPositive(step.entry.id);
    } else if step.Prepare? && DraftOf(c, s.group.stream, s.workers[step.w].pc.job, step.world).Ok? {
      Ledgers.DraftMadeFor(c, s.group.stream, s.workers[step.w].pc.job, step.world);
    }
  }

  lemma {:induction false} CalmRunDisciplined(c: Config, s: State, steps: seq<Step>)
    requires Runs(c, s, steps) && CalmRun(c, s, steps) && AllSparse(s.group.stream)
    ensures DisciplinedRun(c, s, steps, BAND)
    decreases |steps|
  {
    if steps != [] {
      CalmIsDisciplined(c, s, steps[0]);
      CalmStream(c, s, steps[0]);
      CalmRunDisciplined(c, Apply(c, s, steps[0]), steps[1..]);
    }
  }

  lemma {:induction false} BusyRunDisciplined(c: Config, s: State, steps: seq<Step>)
    requires Runs(c, s, steps) && BusyRun(c, s, steps) && AllOrdinary(s.group.stream)
    ensures DisciplinedRun(c, s, steps, 1)
    decreases |steps|
  {
    if steps != [] {
      BusyIsDisciplined(c, s, steps[0]);
      BusyRunDisciplined(c, Apply(c, s, steps[0]), steps[1..]);
    }
  }

  /** End to end for real ids: whatever fails or crashes, the run refines the specification, and
      each acknowledged message has exactly one order, made for its buyer. */
  lemma CalmRunsBookExactly(c: Config, s0: State, steps: seq<Step>)
    requires Initial(s0) && Runs(c, s0, steps) && CalmRun(c, s0, steps)
    ensures FollowsExactly(c, s0, steps)
    ensures forall pos :: pos in Final(c, s0, steps).group.acked ==> BookedExactly(c, Final(c, s0, steps), pos)
  {
    CalmRunDisciplined(c, s0, steps);
    Exactness.InitialInv(c, s0, BAND);
    DisciplinedRefines(c, s0, steps, BAND);
    forall pos | pos in Final(c, s0, steps).group.acked ensures BookedExactly(c, Final(c, s0, steps), pos) {
      AckedIsBooked(c, s0, steps, BAND, pos);
    }
  }

  lemma BusyRunsBookExactly(c: Config, s0: State, steps: seq<Step>)
    requires Initial(s0) && Runs(c, s0, steps) && BusyRun(c, s0, steps)
    ensures FollowsExactly(c, s0, steps)
    ensures forall pos :: pos in Final(c, s0, steps).group.acked ==> BookedExactly(c, Final(c, s0, steps), pos)
  {
    BusyRunDisciplined(c, s0, steps);
    Exactness.InitialInv(c, s0, 1);
    DisciplinedRefines(c, s0, steps, 1);
    forall pos | pos in Final(c, s0, steps).group.acked ensures BookedExactly(c, Final(c, s0, steps), pos) {
      AckedIsBooked(c, s0, steps, 1, pos);
    }
  }
}
