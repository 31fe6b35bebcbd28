/** The flash-sale consumer as a machine of atomic steps: the stream and its consumer group, the
    orders table, the published events and any number of workers.

    Consumers run `consumeLoop`, reclaimers `reclaimLoop` (internal/server/redis.go), buyers
    `PurchaseProduct`; every one of them books through `CreateOrder`. Workers interleave at each
    answer of Redis, the database and the broker, and each of those may fail. */
module Machine {
  import opened Int64
  import opened Orders
  import opened Booking
  import opened StreamHash

  /** The product of the running server and the 64-bit hash of user ids. */
  datatype Config = Config(productId: int, hash: string -> Word)

  /** A stream entry, its uid as `fmt.Sprint` renders it. Entries are named by their position. */
  datatype Entry = Entry(id: Id, uid: string, productId: int)

  predicate HasUid(e: Entry) {
    e.uid != "" && e.uid != "<nil>"
  }

  datatype Job = Message(pos: nat) | Purchase(uid: string, productId: int)

  datatype Role = Consumer | Reclaimer(start: nat) | Buyer

  /** Where a worker is: between messages, in `CreateOrder` before the draft, before the insert,
      before the publish, before XACK, or not running. */
  datatype Pc =
    | Ready
    | Drafting(job: Job)
    | Inserting(job: Job, row: Row)
    | Publishing(job: Job, row: Row)
    | Acking(pos: nat)
    | Down

  datatype Worker = Worker(role: Role, pc: Pc, batch: seq<nat>)

  datatype Sent = Sent(orderId: int, instanceId: Option<int>)

  /** What became of a stored row's event: still with a worker, the i-th event sent, or lost to a
      failure or a crash. */
  datatype Fate = InFlight(worker: nat) | Announced(index: nat) | Lost

  /** The stream and its consumer group: entries before `delivered` were handed out, `pending` is
      the pending-entries list and `idle` its entries left alone for long enough. */
  datatype Group = Group(stream: seq<Entry>, delivered: nat, pending: set<nat>, idle: set<nat>, acked: set<nat>)

  /** The orders table and the events sent, with the history of both: whose attempt stored a row
      (`owner`), what became of its event (`fate`), the row a message was booked as (`bookedAs`),
      the attempt after which the handler returned nil for it (`grant`), and the rows drafted
      so far with the job each was drafted for (`drafted`). */
  datatype Ledger = Ledger(
    orders: Table, published: seq<Sent>, owner: map<int, Job>, fate: map<int, Fate>,
    bookedAs: map<nat, int>, grant: map<nat, Row>, drafted: set<(Row, Job)>)

  datatype State = State(group: Group, ledger: Ledger, workers: seq<Worker>)

  const BATCH: nat := 128

  datatype Step =
    | Append(entry: Entry)
    | GoIdle(pos: nat)
    | Read(w: nat, n: nat)
    | Claim(w: nat, stop: nat)
    | Take(w: nat)
    | Begin(w: nat, uid: string, productId: int)
    | Prepare(w: nat, world: World)
    | Insert(w: nat, fault: Fault)
    | Publish(w: nat, fault: Fault)
    | Ack(w: nat, fault: Fault)
    | Crash(w: nat)
    | Restart(w: nat, role: Role)

  predicate Initial(s: State) {
    && s.group == Group([], 0, {}, {}, {})
    && s.ledger == Ledger(map[], [], map[], map[], map[], map[], {})
    && (forall w :: 0 <= w < |s.workers| ==> s.workers[w].pc == Down && s.workers[w].batch == [])
  }

  predicate InStream(stream: seq<Entry>, job: Job) {
    job.Message? ==> job.pos < |stream|
  }

  /** No message has the key zero; real ids never do. */
  predicate KeysNonZero(stream: seq<Entry>) {
    forall p :: 0 <= p < |stream| ==> Hash(stream[p].id) != 0
  }

  function User(stream: seq<Entry>, job: Job): string
    requires InStream(stream, job)
  {
    if job.Message? then stream[job.pos].uid else job.uid
  }

  function Target(c: Config, job: Job): int {
    if job.Message? then c.productId else job.productId
  }

  /** The key a job passes to `CreateOrder`: the folded stream id, or none. */
  function Key(stream: seq<Entry>, job: Job): int
    requires InStream(stream, job)
  {
    if job.Message? then Hash(stream[job.pos].id) else 0
  }

  function DraftOf(c: Config, stream: seq<Entry>, job: Job, world: World): Result<Order>
    requires InStream(stream, job)
  {
    Draft(Target(c, job), User(stream, job), Key(stream, job), world, c.hash(User(stream, job)))
  }

  /** Members of a set between two positions, in order. */
  function Ascending(ps: set<nat>, lo: nat, hi: nat): (r: seq<nat>)
    ensures forall i :: 0 <= i < |r| ==> r[i] in ps && lo <= r[i] < hi
    ensures forall p: nat :: lo <= p < hi && p in ps ==> p in r
    decreases hi - lo
  {
    if lo >= hi then [] else (if lo in ps then [lo] else []) + Ascending(ps, lo + 1, hi)
  }

  predicate Moves(step: Step) {
    !step.Append? && !step.GoIdle?
  }

  /** The worker stands where the step can be taken. */
  predicate WorkerReady(g: Group, wk: Worker, step: Step)
    requires Moves(step)
  {
    match step
    case Read(_, n) =>
      wk.role.Consumer? && wk.pc.Ready? && wk.batch == [] && 1 <= n <= BATCH && g.delivered + n <= |g.stream|
    case Claim(_, stop) =>
      wk.role.Reclaimer? && wk.pc.Ready? && wk.batch == [] && wk.role.start <= stop <= g.delivered &&
      |Ascending(g.idle, wk.role.start, stop)| <= BATCH
    case Take(_) => wk.pc.Ready? && wk.batch != [] && wk.batch[0] < |g.stream|
    case Begin(_, uid, _) => wk.role.Buyer? && wk.pc.Ready? && uid != ""
    case Prepare(_, _) => wk.pc.Drafting? && InStream(g.stream, wk.pc.job)
    case Insert(_, _) => wk.pc.Inserting?
    case Publish(_, _) => wk.pc.Publishing?
    case Ack(_, _) => wk.pc.Acking?
    case Crash(_) => !wk.pc.Down?
    case Restart(_, role) => wk.pc.Down? && (role.Reclaimer? ==> role.start == 0)
  }

  predicate Enabled(s: State, step: Step) {
    if step.Append? then forall p :: 0 <= p < |s.group.stream| ==> s.group.stream[p].id != step.entry.id
    else if step.GoIdle? then step.pos in s.group.pending
    else step.w < |s.workers| && WorkerReady(s.group, s.workers[step.w], step)
  }

  // ---------------------------------------------------------------------------------------------
  // What a step does to the consumer group
  // ---------------------------------------------------------------------------------------------

  function NextBatch(g: Group, n: nat): seq<nat> {
    seq(n, (i: nat) => g.delivered + i)
  }

  function NewGroup(s: State, step: Step): Group
    requires Enabled(s, step)
  {
    var g := s.group;
    match step
    case Append(entry) => g.(stream := g.stream + [entry])
    case GoIdle(pos) => g.(idle := g.idle + {pos})
    case Read(_, n) =>
      var batch := NextBatch(g, n);
      g.(delivered := g.delivered + n, pending := g.pending + (set p | p in batch))
    case Claim(w, stop) =>
      var batch := Ascending(g.idle, s.workers[w].role.start, stop);
      g.(idle := g.idle - (set p | p in batch))
    case Ack(w, fault) =>
      var pos := s.workers[w].pc.pos;
      if fault == Refused then g
      else g.(pending := g.pending - {pos}, idle := g.idle - {pos}, acked := g.acked + {pos})
    case _ => g
  }

  // ---------------------------------------------------------------------------------------------
  // What a step does to its worker
  // ---------------------------------------------------------------------------------------------

  /** Once `CreateOrder` has succeeded or met a unique violation, the handler of a message returns
      nil and the entry is acknowledged; a purchase is over either way. */
  function AfterSuccess(job: Job): Pc {
    if job.Message? then Acking(job.pos) else Ready
  }

  predicate AllBelow(ps: set<nat>, bound: nat) {
    forall p :: p in ps ==> p < bound
  }

  /** XAUTOCLAIM up to the position where its scan stopped; the cursor restarts when the scan was
      complete or found nothing. */
  function Claimed(g: Group, wk: Worker, stop: nat): Worker
    requires wk.role.Reclaimer?
  {
    var batch := Ascending(g.idle, wk.role.start, stop);
    var next := if batch == [] || AllBelow(g.pending, stop) then 0 else stop;
    wk.(role := Reclaimer(next), batch := batch)
  }

  /** The next message of the batch; without a uid it is skipped and stays pending. */
  function Taken(g: Group, wk: Worker): Worker
    requires wk.batch != [] && wk.batch[0] < |g.stream|
  {
    var pos := wk.batch[0];
    wk.(pc := if HasUid(g.stream[pos]) then Drafting(Message(pos)) else Ready, batch := wk.batch[1..])
  }

  /** The uids that are skipped are the empty one and what `fmt.Sprint` makes of a missing field; with any other
      the worker goes on to book. */
  lemma TakenByUid(g: Group, wk: Worker)
    requires wk.batch != [] && wk.batch[0] < |g.stream|
    ensures var uid, after := g.stream[wk.batch[0]].uid, Taken(g, wk);
            && after.role == wk.role && after.batch == wk.batch[1..]
            && (uid == "" || uid == "<nil>" ==> after.pc == Ready)
            && (uid != "" && uid != "<nil>" ==> after.pc == Drafting(Message(wk.batch[0])))
  {}

  function Drafted(job: Job, draft: Result<Order>): Pc {
    match draft
    case Err(_) => Ready
    case Ok(o) => Inserting(job, ToRow(o))
  }

  function AfterInsert(job: Job, row: Row, reply: Reply): Pc {
    match reply
    case Stored => Publishing(job, row)
    case Duplicate => AfterSuccess(job)
    case Failed => Ready
  }

  function NewWorker(c: Config, s: State, step: Step): Worker
    requires Enabled(s, step) && Moves(step)
  {
    var wk := s.workers[step.w];
    match step
    case Read(_, n) => wk.(batch := NextBatch(s.group, n))
    case Claim(_, stop) => Claimed(s.group, wk, stop)
    case Take(_) => Taken(s.group, wk)
    case Begin(_, uid, productId) => wk.(pc := Drafting(Purchase(uid, productId)))
    case Prepare(_, world) => wk.(pc := Drafted(wk.pc.job, DraftOf(c, s.group.stream, wk.pc.job, world)))
    case Insert(_, fault) => wk.(pc := AfterInsert(wk.pc.job, wk.pc.row, InsertReply(s.ledger.orders, wk.pc.row, fault)))
    case Publish(_, fault) => wk.(pc := if fault == NoFault then AfterSuccess(wk.pc.job) else Ready)
    case Ack(_, _) => wk.(pc := Ready)
    case Crash(_) => wk.(pc := Down, batch := [])
    case Restart(_, role) => Worker(role, Ready, [])
  }

  // ---------------------------------------------------------------------------------------------
  // What a step does to the table and the events
  // ---------------------------------------------------------------------------------------------

  function Granted(l: Ledger, job: Job, row: Row): Ledger {
    if job.Message? then l.(grant := l.grant[job.pos := row]) else l
  }

  function Recorded(l: Ledger, job: Job, row: Row, fate: Fate): Ledger {
    l.(orders := l.orders[row.orderId := row],
       owner := l.owner[row.orderId := job],
       fate := l.fate[row.orderId := fate],
       bookedAs := if job.Message? then l.bookedAs[job.pos := row.orderId] else l.bookedAs)
  }

  function Settled(l: Ledger, orderId: int, fate: Fate): Ledger {
    l.(fate := l.fate[orderId := fate])
  }

  function LedgerInsert(l: Ledger, w: nat, job: Job, row: Row, fault: Fault): Ledger {
    match InsertReply(l.orders, row, fault)
    case Stored => Recorded(l, job, row, InFlight(w))
    case Duplicate => Granted(l, job, row)
    case Failed => if fault == Refused then l else Recorded(l, job, row, Lost)
  }

  function Announce(l: Ledger, row: Row): Ledger {
    Settled(l, row.orderId, Announced(|l.published|)).(published := l.published + [Sent(row.orderId, row.instanceId)])
  }

  function LedgerPublish(l: Ledger, job: Job, row: Row, fault: Fault): Ledger {
    match fault
    case Refused => Settled(l, row.orderId, Lost)
    case Unacknowledged => Announce(l, row)
    case NoFault => Granted(Announce(l, row), job, row)
  }

  function NewLedger(c: Config, s: State, step: Step): Ledger
    requires Enabled(s, step)
  {
    var l := s.ledger;
    match step
    case Prepare(w, world) =>
      var draft := DraftOf(c, s.group.stream, s.workers[w].pc.job, world);
      if draft.Ok? then l.(drafted := l.drafted + {(ToRow(draft.value), s.workers[w].pc.job)}) else l
    case Insert(w, fault) => LedgerInsert(l, w, s.workers[w].pc.job, s.workers[w].pc.row, fault)
    case Publish(w, fault) => LedgerPublish(l, s.workers[w].pc.job, s.workers[w].pc.row, fault)
    case Crash(w) => if s.workers[w].pc.Publishing? then Settled(l, s.workers[w].pc.row.orderId, Lost) else l
    case _ => l
  }

  function NewWorkers(c: Config, s: State, step: Step): seq<Worker>
    requires Enabled(s, step)
  {
    if Moves(step) then s.workers[step.w := NewWorker(c, s, step)] else s.workers
  }

  function Apply(c: Config, s: State, step: Step): State
    requires Enabled(s, step)
  {
    State(NewGroup(s, step), NewLedger(c, s, step), NewWorkers(c, s, step))
  }

  /** A run: steps each enabled where it is taken. */
  predicate Runs(c: Config, s: State, steps: seq<Step>)
    decreases |steps|
  {
    steps == [] || (Enabled(s, steps[0]) && Runs(c, Apply(c, s, steps[0]), steps[1..]))
  }

  function Final(c: Config, s: State, steps: seq<Step>): State
    requires Runs(c, s, steps)
    decreases |steps|
  {
    if steps == [] then s else Final(c, Apply(c, s, steps[0]), steps[1..])
  }
}
