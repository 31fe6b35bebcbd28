/** What the orders table and the event log hold at every state of every run: each row was made for
    its job, each event belongs to one row, and nothing is acknowledged without a reason. */
module Ledgers {
  import opened Orders
  import opened Booking
  import opened Machine
  import opened Delivery

  /** The row carries the product, the user and, unless it is zero, the key of the job. */
  predicate MadeFor(c: Config, stream: seq<Entry>, job: Job, row: Row) {
    && InStream(stream, job)
    && row.productId == Target(c, job)
    && row.userId == User(stream, job)
    && (Key(stream, job) != 0 ==> row.reqId == Key(stream, job))
  }

  ghost predicate TableOk(c: Config, stream: seq<Entry>, l: Ledger) {
    && WellKeyed(l.orders)
    && l.owner.Keys == l.orders.Keys
    && l.fate.Keys == l.orders.Keys
    && (forall k :: k in l.orders ==> MadeFor(c, stream, l.owner[k], l.orders[k]))
  }

  /** The i-th event announces the row whose fate is to be announced by the i-th event. */
  ghost predicate EventsOk(l: Ledger) {
    && (forall i :: 0 <= i < |l.published| ==> EventOk(l, i))
    && (forall k :: k in l.fate && l.fate[k].Announced? ==>
         l.fate[k].index < |l.published| && l.published[l.fate[k].index].orderId == k)
  }

  predicate EventOk(l: Ledger, i: nat)
    requires i < |l.published|
  {
    var e := l.published[i];
    e.orderId in l.fate && l.fate[e.orderId] == Announced(i) &&
    e.orderId in l.orders && l.orders[e.orderId].instanceId == e.instanceId
  }

  ghost predicate BooksOk(l: Ledger) {
    && (forall p :: p in l.bookedAs ==> l.bookedAs[p] in l.owner && l.owner[l.bookedAs[p]] == Message(p))
    && (forall k :: k in l.owner && l.owner[k].Message? ==> l.owner[k].pos in l.bookedAs)
  }

  /** An attempt after which the handler returned nil is, or collides with, a stored row. */
  ghost predicate GrantsOk(c: Config, stream: seq<Entry>, l: Ledger) {
    forall p :: p in l.grant ==>
      MadeFor(c, stream, Message(p), l.grant[p]) && DraftedFor(l, Message(p), l.grant[p]) && Clashes(l.orders, l.grant[p])
  }

  /** An attempt for the job drafted the row. */
  predicate DraftedFor(l: Ledger, job: Job, row: Row) {
    (row, job) in l.drafted
  }

  /** A stored row was drafted for its owner. */
  ghost predicate DraftsOk(l: Ledger) {
    forall k :: k in l.owner && k in l.orders ==> DraftedFor(l, l.owner[k], l.orders[k])
  }

  ghost predicate LedgerOk(c: Config, stream: seq<Entry>, l: Ledger) {
    TableOk(c, stream, l) && EventsOk(l) && BooksOk(l) && GrantsOk(c, stream, l) && DraftsOk(l)
  }

  /** The worker's row fits its job, and a row awaiting its event is the worker's alone. */
  predicate PcTied(c: Config, stream: seq<Entry>, l: Ledger, w: nat, pc: Pc) {
    match pc
    case Inserting(job, row) => MadeFor(c, stream, job, row) && DraftedFor(l, job, row)
    case Publishing(job, row) =>
      && MadeFor(c, stream, job, row) && DraftedFor(l, job, row)
      && row.orderId in l.orders && l.orders[row.orderId] == row
      && row.orderId in l.fate && l.fate[row.orderId] == InFlight(w)
      && row.orderId in l.owner && l.owner[row.orderId] == job
    case Acking(pos) => pos in l.grant
    case _ => true
  }

  ghost predicate WorkersTied(c: Config, s: State) {
    forall w :: 0 <= w < |s.workers| ==> PcTied(c, s.group.stream, s.ledger, w, s.workers[w].pc)
  }

  /** A row whose event is in flight is in some worker's hands. */
  ghost predicate FlightsOk(l: Ledger, workers: seq<Worker>) {
    forall k :: k in l.fate && l.fate[k].InFlight? ==>
      l.fate[k].worker < |workers| && Holds(workers[l.fate[k].worker].pc, k)
  }

  predicate Holds(pc: Pc, orderId: int) {
    pc.Publishing? && pc.row.orderId == orderId
  }

  ghost predicate Inv(c: Config, s: State) {
    && Delivery.Inv(s)
    && LedgerOk(c, s.group.stream, s.ledger)
    && WorkersTied(c, s)
    && FlightsOk(s.ledger, s.workers)
    && (forall p :: p in s.group.acked ==> p in s.ledger.grant)
  }

  lemma InitialInv(c: Config, s: State)
    requires Initial(s)
    ensures Inv(c, s)
  {}

  // ---------------------------------------------------------------------------------------------
  // The elementary changes of a ledger
  // ---------------------------------------------------------------------------------------------

  lemma GrowthKeepsLedger(c: Config, stream: seq<Entry>, stream': seq<Entry>, l: Ledger)
    requires LedgerOk(c, stream, l) && stream <= stream'
    ensures LedgerOk(c, stream', l)
  {}

  lemma ClashesMonotone(t: Table, r: Row, q: Row)
    requires Clashes(t, q) && !Clashes(t, r)
    ensures Clashes(t[r.orderId := r], q)
  {
    if q.orderId !in t {
      var k :| k in t && HasKey(t[k], q.productId, q.reqId);
      assert HasKey(t[r.orderId := r][k], q.productId, q.reqId);
    }
  }

  lemma RecordKeepsTable(c: Config, stream: seq<Entry>, l: Ledger, job: Job, row: Row, fate: Fate)
    requires TableOk(c, stream, l) && MadeFor(c, stream, job, row) && !Clashes(l.orders, row)
    ensures TableOk(c, stream, Recorded(l, job, row, fate))
  {
    InsertKeepsKeys(l.orders, row, NoFault);
  }

  lemma RecordKeepsEvents(c: Config, stream: seq<Entry>, l: Ledger, job: Job, row: Row, fate: Fate)
    requires TableOk(c, stream, l) && EventsOk(l) && !Clashes(l.orders, row) && !fate.Announced?
    ensures EventsOk(Recorded(l, job, row, fate))
  {
    forall i | 0 <= i < |l.published| ensures EventOk(Recorded(l, job, row, fate), i) {
      assert EventOk(l, i);
    }
  }

  lemma RecordKeepsBooks(c: Config, stream: seq<Entry>, l: Ledger, job: Job, row: Row, fate: Fate)
    requires TableOk(c, stream, l) && BooksOk(l) && !Clashes(l.orders, row)
    ensures BooksOk(Recorded(l, job, row, fate))
  {}

  lemma RecordKeepsGrants(c: Config, stream: seq<Entry>, l: Ledger, job: Job, row: Row, fate: Fate)
    requires GrantsOk(c, stream, l) && !Clashes(l.orders, row)
    ensures GrantsOk(c, stream, Recorded(l, job, row, fate))
  {
    forall p | p in l.grant ensures Clashes(l.orders[row.orderId := row], l.grant[p]) {
      ClashesMonotone(l.orders, row, l.grant[p]);
    }
  }

  lemma RecordKeeps(c: Config, stream: seq<Entry>, l: Ledger, job: Job, row: Row, fate: Fate)
    requires LedgerOk(c, stream, l) && MadeFor(c, stream, job, row) && DraftedFor(l, job, row)
    requires !Clashes(l.orders, row) && !fate.Announced?
    ensures LedgerOk(c, stream, Recorded(l, job, row, fate))
  {
    RecordKeepsTable(c, stream, l, job, row, fate);
    RecordKeepsEvents(c, stream, l, job, row, fate);
    RecordKeepsBooks(c, stream, l, job, row, fate);
    RecordKeepsGrants(c, stream, l, job, row, fate);
  }

  lemma GrantKeeps(c: Config, stream: seq<Entry>, l: Ledger, job: Job, row: Row)
    requires LedgerOk(c, stream, l) && MadeFor(c, stream, job, row) && DraftedFor(l, job, row) && Clashes(l.orders, row)
    ensures LedgerOk(c, stream, Granted(l, job, row))
  {
    forall i | 0 <= i < |l.published| ensures EventOk(Granted(l, job, row), i) {
      assert EventOk(l, i);
    }
  }

  lemma LoseKeeps(c: Config, stream: seq<Entry>, l: Ledger, orderId: int)
    requires LedgerOk(c, stream, l) && orderId in l.fate && l.fate[orderId].InFlight?
    ensures LedgerOk(c, stream, Settled(l, orderId, Lost))
  {
    var l' := Settled(l, orderId, Lost);
    forall i | 0 <= i < |l.published| ensures EventOk(l', i) {
      assert EventOk(l, i);
    }
  }

  lemma AnnounceKeeps(c: Config, stream: seq<Entry>, l: Ledger, row: Row)
    requires LedgerOk(c, stream, l) && row.orderId in l.fate && l.fate[row.orderId].InFlight?
    requires row.orderId in l.orders && l.orders[row.orderId] == row
    ensures LedgerOk(c, stream, Announce(l, row))
  {
    var l' := Announce(l, row);
    forall i | 0 <= i < |l'.published| ensures EventOk(l', i) {
      if i < |l.published| {
        assert EventOk(l, i);
      }
    }
  }

  // ---------------------------------------------------------------------------------------------
  // Steps
  // ---------------------------------------------------------------------------------------------

  lemma InsertKeepsLedger(c: Config, stream: seq<Entry>, l: Ledger, w: nat, job: Job, row: Row, fault: Fault)
    requires LedgerOk(c, stream, l) && MadeFor(c, stream, job, row) && DraftedFor(l, job, row)
    ensures LedgerOk(c, stream, LedgerInsert(l, w, job, row, fault))
  {
    match InsertReply(l.orders, row, fault)
    case Stored => RecordKeeps(c, stream, l, job, row, InFlight(w));
    case Duplicate => GrantKeeps(c, stream, l, job, row);
    case Failed =>
      if fault != Refused {
        RecordKeeps(c, stream, l, job, row, Lost);
      }
  }

  lemma PublishKeepsLedger(c: Config, stream: seq<Entry>, l: Ledger, w: nat, job: Job, row: Row, fault: Fault)
    requires LedgerOk(c, stream, l) && PcTied(c, stream, l, w, Publishing(job, row))
    ensures LedgerOk(c, stream, LedgerPublish(l, job, row, fault))
  {
    if fault == Refused {
      LoseKeeps(c, stream, l, row.orderId);
    } else {
      AnnounceKeeps(c, stream, l, row);
      if fault == NoFault {
        GrantKeeps(c, stream, Announce(l, row), job, row);
      }
    }
  }

  lemma DraftKeepsLedger(c: Config, stream: seq<Entry>, l: Ledger, drafted: set<(Row, Job)>)
    requires LedgerOk(c, stream, l) && l.drafted <= drafted
    ensures LedgerOk(c, stream, l.(drafted := drafted))
  {
    forall i | 0 <= i < |l.published| ensures EventOk(l.(drafted := drafted), i) {
      assert EventOk(l, i);
    }
  }

  lemma LedgerKeeps(c: Config, s: State, step: Step)
    requires Inv(c, s) && Enabled(s, step)
    ensures LedgerOk(c, NewGroup(s, step).stream, NewLedger(c, s, step))
  {
    var l, stream := s.ledger, s.group.stream;
    match step
    case Append(_) => GrowthKeepsLedger(c, stream, NewGroup(s, step).stream, l);
    case Prepare(w, world) => DraftKeepsLedger(c, stream, l, NewLedger(c, s, step).drafted);
    case Insert(w, fault) =>
      assert PcTied(c, stream, l, w, s.workers[w].pc);
      InsertKeepsLedger(c, stream, l, w, s.workers[w].pc.job, s.workers[w].pc.row, fault);
    case Publish(w, fault) =>
      assert PcTied(c, stream, l, w, s.workers[w].pc);
      PublishKeepsLedger(c, stream, l, w, s.workers[w].pc.job, s.workers[w].pc.row, fault);
    case Crash(w) =>
      assert PcTied(c, stream, l, w, s.workers[w].pc);
      if s.workers[w].pc.Publishing? {
        LoseKeeps(c, stream, l, s.workers[w].pc.row.orderId);
      }
    case _ =>
  }

  /** A step of worker w changes no row, no owner, no grant and no fate that is not its own. */
  ghost predicate Evolves(l: Ledger, l': Ledger, w: nat) {
    && (forall k :: k in l.owner ==> k in l'.owner && l'.owner[k] == l.owner[k])
    && (forall k :: k in l.orders ==> k in l'.orders && l'.orders[k] == l.orders[k])
    && (forall k :: k in l.fate && l.fate[k] != InFlight(w) ==> k in l'.fate && l'.fate[k] == l.fate[k])
    && (forall k :: k in l'.fate && l'.fate[k].InFlight? && l'.fate[k] != InFlight(w) ==>
         k in l.fate && l.fate[k] == l'.fate[k])
    && l.grant.Keys <= l'.grant.Keys && l.drafted <= l'.drafted
  }

  lemma InsertEvolves(l: Ledger, w: nat, job: Job, row: Row, fault: Fault)
    requires l.fate.Keys == l.orders.Keys == l.owner.Keys
    ensures Evolves(l, LedgerInsert(l, w, job, row, fault), w)
  {
    match InsertReply(l.orders, row, fault)
    case Stored => RecordEvolves(l, w, job, row, InFlight(w));
    case Duplicate =>
    case Failed =>
      if fault != Refused {
        RecordEvolves(l, w, job, row, Lost);
      }
  }

  lemma RecordEvolves(l: Ledger, w: nat, job: Job, row: Row, fate: Fate)
    requires l.fate.Keys == l.orders.Keys == l.owner.Keys && !Clashes(l.orders, row)
    requires fate == InFlight(w) || fate == Lost
    ensures Evolves(l, Recorded(l, job, row, fate), w)
  {}

  lemma PublishEvolves(l: Ledger, w: nat, job: Job, row: Row, fault: Fault)
    requires row.orderId in l.fate && l.fate[row.orderId] == InFlight(w)
    ensures Evolves(l, LedgerPublish(l, job, row, fault), w)
  {}

  lemma LoseEvolves(l: Ledger, w: nat, orderId: int)
    requires orderId in l.fate && l.fate[orderId] == InFlight(w)
    ensures Evolves(l, Settled(l, orderId, Lost), w)
  {}

  lemma LedgerEvolves(c: Config, s: State, step: Step)
    requires Inv(c, s) && Enabled(s, step) && Moves(step)
    ensures Evolves(s.ledger, NewLedger(c, s, step), step.w)
  {
    var pc := s.workers[step.w].pc;
    assert PcTied(c, s.group.stream, s.ledger, step.w, pc);
    if step.Insert? {
      InsertEvolves(s.ledger, step.w, pc.job, pc.row, step.fault);
    } else if step.Publish? {
      PublishEvolves(s.ledger, step.w, pc.job, pc.row, step.fault);
    } else if step.Crash? && pc.Publishing? {
      LoseEvolves(s.ledger, step.w, pc.row.orderId);
    }
  }

  lemma OtherTied(c: Config, stream: seq<Entry>, stream': seq<Entry>, l: Ledger, l': Ledger, w: nat, u: nat, pc: Pc)
    requires PcTied(c, stream, l, u, pc) && Evolves(l, l', w) && u != w && stream <= stream'
    ensures PcTied(c, stream', l', u, pc)
  {}

  lemma DraftMadeFor(c: Config, stream: seq<Entry>, job: Job, world: World)
    requires InStream(stream, job) && DraftOf(c, stream, job, world).Ok?
    ensures MadeFor(c, stream, job, ToRow(DraftOf(c, stream, job, world).value))
  {}

  lemma SelfTied(c: Config, s: State, step: Step)
    requires Inv(c, s) && Enabled(s, step) && Moves(step)
    ensures PcTied(c, s.group.stream, NewLedger(c, s, step), step.w, NewWorker(c, s, step).pc)
  {
    var wk := s.workers[step.w];
    assert PcTied(c, s.group.stream, s.ledger, step.w, wk.pc);
    if step.Prepare? && DraftOf(c, s.group.stream, wk.pc.job, step.world).Ok? {
      DraftMadeFor(c, s.group.stream, wk.pc.job, step.world);
    }
  }

  /** Nothing but the row it is publishing is in flight with a worker. */
  lemma OwnFlights(s: State, w: nat, k: int)
    requires FlightsOk(s.ledger, s.workers) && k in s.ledger.fate && s.ledger.fate[k] == InFlight(w)
    ensures w < |s.workers| && Holds(s.workers[w].pc, k)
  {}

  lemma InsertFlights(l: Ledger, w: nat, job: Job, row: Row, fault: Fault, k: int)
    requires k in l.fate ==> l.fate[k] != InFlight(w)
    ensures var l' := LedgerInsert(l, w, job, row, fault);
            k in l'.fate && l'.fate[k] == InFlight(w) ==> Holds(AfterInsert(job, row, InsertReply(l.orders, row, fault)), k)
  {}

  /** Whatever is in flight with the moving worker afterwards is the row it now holds. */
  lemma SelfFlights(c: Config, s: State, step: Step, k: int)
    requires Inv(c, s) && Enabled(s, step) && Moves(step)
    requires k in NewLedger(c, s, step).fate && NewLedger(c, s, step).fate[k] == InFlight(step.w)
    ensures Holds(NewWorker(c, s, step).pc, k)
  {
    if step.Insert? {
      var l, pc := s.ledger, s.workers[step.w].pc;
      if k in l.fate && l.fate[k] == InFlight(step.w) {
        OwnFlights(s, step.w, k);
      }
      InsertFlights(l, step.w, pc.job, pc.row, step.fault, k);
    } else {
      QuietFlights(c, s, step, k);
    }
  }

  /** Any other step leaves nothing in flight with its worker. */
  lemma QuietFlights(c: Config, s: State, step: Step, k: int)
    requires Inv(c, s) && Enabled(s, step) && Moves(step) && !step.Insert?
    ensures k in NewLedger(c, s, step).fate ==> NewLedger(c, s, step).fate[k] != InFlight(step.w)
  {
    if k in s.ledger.fate && s.ledger.fate[k] == InFlight(step.w) {
      OwnFlights(s, step.w, k);
    }
    if step.Publish? {
      var pc := s.workers[step.w].pc;
      PublishFlights(s.ledger, step.w, pc.job, pc.row, step.fault, k);
    }
  }

  lemma PublishFlights(l: Ledger, w: nat, job: Job, row: Row, fault: Fault, k: int)
    requires k in l.fate && l.fate[k] == InFlight(w) ==> row.orderId == k
    ensures var l' := LedgerPublish(l, job, row, fault); k in l'.fate ==> l'.fate[k] != InFlight(w)
  {}

  lemma FlightsKeep(c: Config, s: State, step: Step)
    requires Inv(c, s) && Enabled(s, step) && Moves(step)
    ensures FlightsOk(NewLedger(c, s, step), NewWorkers(c, s, step))
  {
    var l' := NewLedger(c, s, step);
    LedgerEvolves(c, s, step);
    forall k | k in l'.fate && l'.fate[k] == InFlight(step.w) ensures Holds(NewWorker(c, s, step).pc, k) {
      SelfFlights(c, s, step, k);
    }
  }

  lemma AckedKeeps(c: Config, s: State, step: Step, l': Ledger)
    requires Inv(c, s) && Enabled(s, step) && Moves(step)
    requires Evolves(s.ledger, l', step.w)
    ensures forall p :: p in NewGroup(s, step).acked ==> p in l'.grant
  {
    assert PcTied(c, s.group.stream, s.ledger, step.w, s.workers[step.w].pc);
  }

  lemma TiedKeeps(c: Config, s: State, step: Step)
    requires Inv(c, s) && Enabled(s, step) && Moves(step)
    ensures WorkersTied(c, Apply(c, s, step))
  {
    LedgerEvolves(c, s, step);
    SelfTied(c, s, step);
    var stream, l' := s.group.stream, NewLedger(c, s, step);
    forall u | 0 <= u < |s.workers| && u != step.w ensures PcTied(c, stream, l', u, s.workers[u].pc) {
      OtherTied(c, stream, stream, s.ledger, l', step.w, u, s.workers[u].pc);
    }
  }

  lemma StepKeeps(c: Config, s: State, step: Step)
    requires Inv(c, s) && Enabled(s, step)
    ensures Inv(c, Apply(c, s, step))
  {
    Delivery.StepKeeps(c, s, step);
    LedgerKeeps(c, s, step);
    if Moves(step) {
      LedgerEvolves(c, s, step);
      AckedKeeps(c, s, step, NewLedger(c, s, step));
      FlightsKeep(c, s, step);
      TiedKeeps(c, s, step);
    } else {
      EnvironmentKeeps(c, s, step);
    }
  }

  lemma EnvironmentKeeps(c: Config, s: State, step: Step)
    requires Inv(c, s) && Enabled(s, step) && !Moves(step)
    ensures WorkersTied(c, Apply(c, s, step)) && FlightsOk(s.ledger, s.workers)
  {
    forall w | 0 <= w < |s.workers| ensures PcTied(c, NewGroup(s, step).stream, s.ledger, w, s.workers[w].pc) {
      assert PcTied(c, s.group.stream, s.ledger, w, s.workers[w].pc);
    }
  }

  lemma {:induction false} RunKeeps(c: Config, s: State, steps: seq<Step>)
    requires Inv(c, s) && Runs(c, s, steps)
    ensures Inv(c, Final(c, s, steps))
    decreases |steps|
  {
    if steps != [] {
      StepKeeps(c, s, steps[0]);
      RunKeeps(c, Apply(c, s, steps[0]), steps[1..]);
    }
  }
}
