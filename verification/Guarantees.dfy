/** What holds in every state of every run of the consumer, whatever interleaving, failure and
    crash the run contains. */
module Guarantees {
  import opened Orders
  import opened Counting
  import opened StreamHash
  import opened Machine
  import opened Ledgers

  /** The states runs can reach. */
  ghost predicate Reached(c: Config, s0: State, steps: seq<Step>, s: State) {
    Initial(s0) && Runs(c, s0, steps) && s == Final(c, s0, steps)
  }

  lemma ReachedInv(c: Config, s0: State, steps: seq<Step>, s: State)
    requires Reached(c, s0, steps, s)
    ensures Inv(c, s)
  {
    InitialInv(c, s0);
    RunKeeps(c, s0, steps);
  }

  // ---------------------------------------------------------------------------------------------
  // Delivery
  // ---------------------------------------------------------------------------------------------

  /** Every delivered entry is pending or acknowledged and never both; entries without a uid are
      never acknowledged. */
  lemma DeliveredSplit(c: Config, s0: State, steps: seq<Step>, s: State, pos: nat)
    requires Reached(c, s0, steps, s) && pos < s.group.delivered
    ensures pos in s.group.pending <==> pos !in s.group.acked
    ensures pos < |s.group.stream|
    ensures s.group.stream[pos].uid == "" || s.group.stream[pos].uid == "<nil>" ==> pos in s.group.pending
  {
    ReachedInv(c, s0, steps, s);
  }

  /** An entry leaves the pending list in exactly one way: a worker whose handler returned nil for
      it gets its XACK through. Failed handlers, failed acks and crashes leave it there. */
  lemma PendingLeavesByAck(c: Config, s: State, step: Step, pos: nat)
    requires Inv(c, s) && Enabled(s, step) && pos in s.group.pending
    ensures pos !in NewGroup(s, step).pending <==>
            step.Ack? && step.fault != Refused && s.workers[step.w].pc == Acking(pos)
  {}

  // ---------------------------------------------------------------------------------------------
  // Acknowledgement
  // ---------------------------------------------------------------------------------------------

  /** The step drafts the row for the job. */
  predicate Drafts(c: Config, s: State, step: Step, row: Row, job: Job)
    requires Enabled(s, step)
  {
    step.Prepare? && s.workers[step.w].pc.job == job &&
    var draft := DraftOf(c, s.group.stream, job, step.world);
    draft.Ok? && ToRow(draft.value) == row
  }

  predicate RunDrafts(c: Config, s: State, steps: seq<Step>, row: Row, job: Job)
    requires Runs(c, s, steps)
    decreases |steps|
  {
    steps != [] && (Drafts(c, s, steps[0], row, job) || RunDrafts(c, Apply(c, s, steps[0]), steps[1..], row, job))
  }

  /** The history of drafts is what the run's steps drafted. */
  lemma {:induction false} DraftedByRun(c: Config, s: State, steps: seq<Step>, row: Row, job: Job)
    requires Runs(c, s, steps)
    ensures DraftedFor(Final(c, s, steps).ledger, job, row) <==>
              DraftedFor(s.ledger, job, row) || RunDrafts(c, s, steps, row, job)
    decreases |steps|
  {
    if steps != [] {
      DraftedByStep(c, s, steps[0], row, job);
      DraftedByRun(c, Apply(c, s, steps[0]), steps[1..], row, job);
    }
  }

  lemma DraftedByStep(c: Config, s: State, step: Step, row: Row, job: Job)
    requires Enabled(s, step)
    ensures DraftedFor(NewLedger(c, s, step), job, row) <==>
              DraftedFor(s.ledger, job, row) || Drafts(c, s, step, row, job)
  {
    if step.Insert? {
      InsertDrafts(s.ledger, step.w, s.workers[step.w].pc.job, s.workers[step.w].pc.row, step.fault);
    } else if step.Publish? {
      PublishDrafts(s.ledger, s.workers[step.w].pc.job, s.workers[step.w].pc.row, step.fault);
    }
  }

  lemma InsertDrafts(l: Ledger, w: nat, job: Job, row: Row, fault: Fault)
    ensures LedgerInsert(l, w, job, row, fault).drafted == l.drafted
  {}

  lemma PublishDrafts(l: Ledger, job: Job, row: Row, fault: Fault)
    ensures LedgerPublish(l, job, row, fault).drafted == l.drafted
  {}

  /** An acknowledged message carries a uid, and some attempt of the run drafted a row for it that the
      table holds or collides with: there is a row with that order id or with that product and key. */
  lemma AckedHasRow(c: Config, s0: State, steps: seq<Step>, s: State, pos: nat) returns (row: Row)
    requires Reached(c, s0, steps, s) && pos in s.group.acked
    ensures pos < |s.group.stream| && s.group.stream[pos].uid != "" && s.group.stream[pos].uid != "<nil>"
    ensures RunDrafts(c, s0, steps, row, Message(pos)) && MadeFor(c, s.group.stream, Message(pos), row)
    ensures row.orderId in s.ledger.orders || KeyTaken(s.ledger.orders, row.productId, row.reqId)
  {
    ReachedInv(c, s0, steps, s);
    row := s.ledger.grant[pos];
    DraftedByRun(c, s0, steps, row, Message(pos));
  }

  /** A stored row is for the buyer it was booked for: a message's for the user of its entry, the product of the
      server and the key of its id, a direct purchase's for the user and the product asked for. */
  lemma RowIsFor(c: Config, s0: State, steps: seq<Step>, s: State, k: int)
    requires Reached(c, s0, steps, s) && k in s.ledger.orders
    ensures k in s.ledger.owner && s.ledger.orders[k].orderId == k
    ensures var job, row := s.ledger.owner[k], s.ledger.orders[k];
            && (job.Message? ==>
                  && job.pos < |s.group.stream| && row.userId == s.group.stream[job.pos].uid
                  && row.productId == c.productId
                  && (Hash(s.group.stream[job.pos].id) != 0 ==> row.reqId == Hash(s.group.stream[job.pos].id)))
            && (job.Purchase? ==> row.userId == job.uid && row.productId == job.productId)
  {
    ReachedInv(c, s0, steps, s);
    assert MadeFor(c, s.group.stream, s.ledger.owner[k], s.ledger.orders[k]);
  }

  /** A message whose key is not zero is booked at most once, however often it is redelivered. */
  lemma BookedOnce(c: Config, s0: State, steps: seq<Step>, s: State, j: int, k: int)
    requires Reached(c, s0, steps, s)
    requires j in s.ledger.owner && k in s.ledger.owner
    requires s.ledger.owner[j].Message? && s.ledger.owner[k] == s.ledger.owner[j]
    requires s.ledger.owner[j].pos < |s.group.stream| ==> Hash(s.group.stream[s.ledger.owner[j].pos].id) != 0
    ensures j == k
  {
    ReachedInv(c, s0, steps, s);
    var l := s.ledger;
    assert MadeFor(c, s.group.stream, l.owner[j], l.orders[j]);
    assert MadeFor(c, s.group.stream, l.owner[k], l.orders[k]);
    assert HasKey(l.orders[j], l.orders[k].productId, l.orders[k].reqId);
  }

  /** Two messages that share a key (as some real ids do) cannot both be booked: once both are
      acknowledged, one buyer has no order. */
  lemma SharedKeyStarves(c: Config, s0: State, steps: seq<Step>, s: State, p: nat, q: nat)
    requires Reached(c, s0, steps, s)
    requires p < q < |s.group.stream|
    requires Hash(s.group.stream[p].id) == Hash(s.group.stream[q].id) != 0
    ensures p !in s.ledger.bookedAs || q !in s.ledger.bookedAs
  {
    ReachedInv(c, s0, steps, s);
    if p in s.ledger.bookedAs && q in s.ledger.bookedAs {
      SharedKeySameMessage(c, s.group.stream, s.ledger, p, q);
    }
  }

  lemma SharedKeySameMessage(c: Config, stream: seq<Entry>, l: Ledger, p: nat, q: nat)
    requires LedgerOk(c, stream, l) && p in l.bookedAs && q in l.bookedAs
    requires p < |stream| && q < |stream| && Hash(stream[p].id) == Hash(stream[q].id) != 0
    ensures p == q
  {
    var j, k := l.bookedAs[p], l.bookedAs[q];
    assert MadeFor(c, stream, l.owner[j], l.orders[j]);
    assert MadeFor(c, stream, l.owner[k], l.orders[k]);
    assert HasKey(l.orders[j], l.orders[k].productId, l.orders[k].reqId);
  }

  // ---------------------------------------------------------------------------------------------
  // Events
  // ---------------------------------------------------------------------------------------------

  /** Every event announces a stored row with its instance id, and no row is announced twice. */
  lemma EventsMatchRows(c: Config, s0: State, steps: seq<Step>, s: State, i: nat, j: nat)
    requires Reached(c, s0, steps, s)
    requires i < |s.ledger.published| && j < |s.ledger.published|
    ensures var e := s.ledger.published[i];
            e.orderId in s.ledger.orders && s.ledger.orders[e.orderId].instanceId == e.instanceId
    ensures s.ledger.published[i].orderId == s.ledger.published[j].orderId ==> i == j
  {
    ReachedInv(c, s0, steps, s);
    assert EventOk(s.ledger, i) && EventOk(s.ledger, j);
  }

  /** The order ids of the rows stored by workers that have yet to publish. */
  function Unsent(workers: seq<Worker>): seq<int> {
    if workers == [] then []
    else Unsent(workers[..|workers| - 1]) +
         (var pc := workers[|workers| - 1].pc; if pc.Publishing? then [pc.row.orderId] else [])
  }

  function Ids(published: seq<Sent>): seq<int> {
    seq(|published|, i requires 0 <= i < |published| => published[i].orderId)
  }

  lemma {:induction false} UnsentIffHeld(workers: seq<Worker>, k: int)
    ensures k in Unsent(workers) <==> exists w :: 0 <= w < |workers| && Holds(workers[w].pc, k)
  {
    if workers != [] {
      var rest := workers[..|workers| - 1];
      UnsentIffHeld(rest, k);
      if k in Unsent(rest) {
        var w :| 0 <= w < |rest| && Holds(rest[w].pc, k);
        assert Holds(workers[w].pc, k);
      }
      if exists w :: 0 <= w < |workers| && Holds(workers[w].pc, k) {
        var w :| 0 <= w < |workers| && Holds(workers[w].pc, k);
        assert w < |rest| ==> Holds(rest[w].pc, k);
      }
    }
  }

  /** No two workers hold the same unsent row. */
  ghost predicate HeldApart(workers: seq<Worker>) {
    forall v, w :: 0 <= v < w < |workers| && workers[v].pc.Publishing? && workers[w].pc.Publishing? ==>
      workers[v].pc.row.orderId != workers[w].pc.row.orderId
  }

  lemma {:induction false} UnsentDistinct(workers: seq<Worker>)
    requires HeldApart(workers)
    ensures NoRepeats(Unsent(workers))
  {
    if workers != [] {
      var rest, last := workers[..|workers| - 1], workers[|workers| - 1].pc;
      UnsentDistinct(rest);
      if last.Publishing? {
        LastHoldsAlone(workers, rest, last.row.orderId);
        UnsentIffHeld(rest, last.row.orderId);
      }
    }
  }

  lemma LastHoldsAlone(workers: seq<Worker>, rest: seq<Worker>, k: int)
    requires HeldApart(workers) && workers != [] && Holds(workers[|workers| - 1].pc, k)
    requires rest == workers[..|workers| - 1]
    ensures forall w :: 0 <= w < |rest| ==> !Holds(rest[w].pc, k)
  {
    forall w | 0 <= w < |rest| ensures !Holds(rest[w].pc, k) {
      assert rest[w] == workers[w];
    }
  }

  function LostRows(l: Ledger): set<int> {
    set k | k in l.fate && l.fate[k].Lost?
  }

  lemma PublishedMembers(l: Ledger)
    requires EventsOk(l)
    ensures NoRepeats(Ids(l.published))
    ensures Members(Ids(l.published)) == set k | k in l.fate && l.fate[k].Announced?
  {
    var ids := Ids(l.published);
    forall i, j | 0 <= i < j < |ids| ensures ids[i] != ids[j] {
      assert EventOk(l, i) && EventOk(l, j);
    }
    forall k | k in l.fate && l.fate[k].Announced? ensures k in ids {
      assert ids[l.fate[k].index] == k;
    }
    forall k | k in ids ensures k in l.fate && l.fate[k].Announced? {
      var i :| 0 <= i < |ids| && ids[i] == k;
      assert EventOk(l, i);
    }
  }

  lemma UnsentMembers(c: Config, s: State)
    requires Inv(c, s)
    ensures HeldApart(s.workers)
    ensures Members(Unsent(s.workers)) == set k | k in s.ledger.fate && s.ledger.fate[k].InFlight?
  {
    var l := s.ledger;
    forall v, w | 0 <= v < w < |s.workers| && s.workers[v].pc.Publishing? && s.workers[w].pc.Publishing?
      ensures s.workers[v].pc.row.orderId != s.workers[w].pc.row.orderId
    {
      assert PcTied(c, s.group.stream, l, v, s.workers[v].pc) && PcTied(c, s.group.stream, l, w, s.workers[w].pc);
    }
    forall k ensures k in Unsent(s.workers) <==> k in l.fate && l.fate[k].InFlight? {
      UnsentIffHeld(s.workers, k);
      if k in Unsent(s.workers) {
        var w :| 0 <= w < |s.workers| && Holds(s.workers[w].pc, k);
        assert PcTied(c, s.group.stream, l, w, s.workers[w].pc);
      }
      if k in l.fate && l.fate[k].InFlight? {
        OwnFlights(s, l.fate[k].worker, k);
      }
    }
  }

  lemma RowsByFate(c: Config, s: State)
    requires Inv(c, s)
    ensures |s.ledger.orders| == |s.ledger.published| + |Unsent(s.workers)| + |LostRows(s.ledger)|
  {
    var l := s.ledger;
    PublishedMembers(l);
    UnsentMembers(c, s);
    UnsentDistinct(s.workers);
    CountMembers(Ids(l.published));
    CountMembers(Unsent(s.workers));
    KeysByFate(l, Members(Ids(l.published)), Members(Unsent(s.workers)));
  }

  lemma KeysByFate(l: Ledger, announced: set<int>, flying: set<int>)
    requires l.fate.Keys == l.orders.Keys
    requires announced == set k | k in l.fate && l.fate[k].Announced?
    requires flying == set k | k in l.fate && l.fate[k].InFlight?
    ensures |l.orders| == |announced| + |flying| + |LostRows(l)|
  {
    assert |l.orders| == |l.orders.Keys|;
    SplitCount(l.orders.Keys, announced, flying, LostRows(l));
  }

  lemma FateOf(l: Ledger, k: int, announced: set<int>, flying: set<int>)
    requires k in l.fate
    requires announced == set j | j in l.fate && l.fate[j].Announced?
    requires flying == set j | j in l.fate && l.fate[j].InFlight?
    ensures k in announced <==> k !in LostRows(l) && k !in flying
  {}

  // ---------------------------------------------------------------------------------------------
  // The steps that lose an event
  // ---------------------------------------------------------------------------------------------

  /** An event is lost in three ways: its publish is refused, its row is stored by an insert reported as
      failed, or its worker stops between the insert and the publish. */
  predicate LosesOne(s: State, step: Step)
    requires Enabled(s, step)
  {
    || (step.Publish? && step.fault == Refused)
    || (step.Crash? && s.workers[step.w].pc.Publishing?)
    || (step.Insert? && step.fault == Unacknowledged && !Clashes(s.ledger.orders, s.workers[step.w].pc.row))
  }

  predicate Loses(s: State, step: Step, k: int)
    requires Enabled(s, step)
  {
    LosesOne(s, step) && s.workers[step.w].pc.row.orderId == k
  }

  /** A step of the run loses the event of row k. */
  predicate RunLoses(c: Config, s: State, steps: seq<Step>, k: int)
    requires Runs(c, s, steps)
    decreases |steps|
  {
    steps != [] && (Loses(s, steps[0], k) || RunLoses(c, Apply(c, s, steps[0]), steps[1..], k))
  }

  /** How many steps of the run lose an event. */
  function Losses(c: Config, s: State, steps: seq<Step>): nat
    requires Runs(c, s, steps)
    decreases |steps|
  {
    if steps == [] then 0
    else (if LosesOne(s, steps[0]) then 1 else 0) + Losses(c, Apply(c, s, steps[0]), steps[1..])
  }

  /** No other step loses an event, none is lost twice, and none comes back. */
  lemma LostExactly(c: Config, s: State, step: Step, k: int)
    requires Inv(c, s) && Enabled(s, step)
    ensures k in LostRows(NewLedger(c, s, step)) <==> k in LostRows(s.ledger) || Loses(s, step, k)
    ensures !(k in LostRows(s.ledger) && Loses(s, step, k))
  {
    if step.Insert? {
      var pc := s.workers[step.w].pc;
      InsertLoses(s.ledger, step.w, pc.job, pc.row, step.fault, k);
    } else if step.Publish? {
      var pc := s.workers[step.w].pc;
      assert PcTied(c, s.group.stream, s.ledger, step.w, pc);
      PublishLoses(s.ledger, step.w, pc.job, pc.row, step.fault, k);
    } else if step.Crash? {
      assert PcTied(c, s.group.stream, s.ledger, step.w, s.workers[step.w].pc);
    }
  }

  lemma InsertLoses(l: Ledger, w: nat, job: Job, row: Row, fault: Fault, k: int)
    requires l.fate.Keys == l.orders.Keys
    ensures k in LostRows(LedgerInsert(l, w, job, row, fault)) <==>
            k in LostRows(l) || (fault == Unacknowledged && row.orderId == k && !Clashes(l.orders, row))
    ensures !(k in LostRows(l) && row.orderId == k && !Clashes(l.orders, row))
  {}

  lemma PublishLoses(l: Ledger, w: nat, job: Job, row: Row, fault: Fault, k: int)
    requires row.orderId in l.fate && l.fate[row.orderId] == InFlight(w)
    ensures k in LostRows(LedgerPublish(l, job, row, fault)) <==>
            k in LostRows(l) || (fault == Refused && row.orderId == k)
    ensures !(k in LostRows(l) && row.orderId == k)
  {}

  lemma OneMoreLost(c: Config, s: State, step: Step)
    requires Inv(c, s) && Enabled(s, step)
    ensures |LostRows(NewLedger(c, s, step))| == |LostRows(s.ledger)| + (if LosesOne(s, step) then 1 else 0)
  {
    var was, now := LostRows(s.ledger), LostRows(NewLedger(c, s, step));
    if LosesOne(s, step) {
      forall k ensures k in now <==> k in was || k == s.workers[step.w].pc.row.orderId {
        LostExactly(c, s, step, k);
      }
      LostExactly(c, s, step, s.workers[step.w].pc.row.orderId);
      AddOne(was, now, s.workers[step.w].pc.row.orderId);
    } else {
      NoMoreLost(c, s, step);
    }
  }

  lemma NoMoreLost(c: Config, s: State, step: Step)
    requires Inv(c, s) && Enabled(s, step) && !LosesOne(s, step)
    ensures |LostRows(NewLedger(c, s, step))| == |LostRows(s.ledger)|
  {
    forall k ensures k in LostRows(NewLedger(c, s, step)) <==> k in LostRows(s.ledger) {
      LostExactly(c, s, step, k);
    }
    SameSet(LostRows(s.ledger), LostRows(NewLedger(c, s, step)));
  }

  lemma AddOne<T(!new)>(was: set<T>, now: set<T>, x: T)
    requires x !in was && forall k :: k in now <==> k in was || k == x
    ensures |now| == |was| + 1
  {
    assert now == was + {x};
  }

  lemma SameSet<T(!new)>(was: set<T>, now: set<T>)
    requires forall k :: k in now <==> k in was
    ensures |now| == |was|
  {
    assert now == was;
  }

  /** A row's event is lost after a run exactly if it was lost before or some step of the run lost it. */
  lemma {:induction false} LostByRun(c: Config, s: State, steps: seq<Step>, k: int)
    requires Inv(c, s) && Runs(c, s, steps)
    ensures k in LostRows(Final(c, s, steps).ledger) <==> k in LostRows(s.ledger) || RunLoses(c, s, steps, k)
    decreases |steps|
  {
    if steps != [] {
      StepKeeps(c, s, steps[0]);
      LostExactly(c, s, steps[0], k);
      LostByRun(c, Apply(c, s, steps[0]), steps[1..], k);
    }
  }

  lemma {:induction false} LostCounted(c: Config, s: State, steps: seq<Step>)
    requires Inv(c, s) && Runs(c, s, steps)
    ensures |LostRows(Final(c, s, steps).ledger)| == |LostRows(s.ledger)| + Losses(c, s, steps)
    decreases |steps|
  {
    if steps != [] {
      StepKeeps(c, s, steps[0]);
      OneMoreLost(c, s, steps[0]);
      LostCounted(c, Apply(c, s, steps[0]), steps[1..]);
    }
  }

  lemma NothingLostYet(s: State)
    requires Initial(s)
    ensures LostRows(s.ledger) == {}
  {}

  /** Conservation: every stored row is announced, or in the hands of a worker that has yet to
      publish, or was lost by one of the run's failed publishes, unconfirmed inserts and crashes, each of
      which costs one event. */
  lemma RowsConserved(c: Config, s0: State, steps: seq<Step>, s: State)
    requires Reached(c, s0, steps, s)
    ensures |s.ledger.orders| == |s.ledger.published| + |Unsent(s.workers)| + Losses(c, s0, steps)
  {
    ReachedInv(c, s0, steps, s);
    InitialInv(c, s0);
    NothingLostYet(s0);
    LostCounted(c, s0, steps);
    RowsByFate(c, s);
  }

  /** Row by row: a stored row has been announced unless a worker is about to publish it or some step of
      the run lost its event. */
  lemma AnnouncedIff(c: Config, s0: State, steps: seq<Step>, s: State, k: int)
    requires Reached(c, s0, steps, s) && k in s.ledger.orders
    ensures k in Ids(s.ledger.published) <==> !RunLoses(c, s0, steps, k) && k !in Unsent(s.workers)
  {
    ReachedInv(c, s0, steps, s);
    InitialInv(c, s0);
    NothingLostYet(s0);
    LostByRun(c, s0, steps, k);
    PublishedMembers(s.ledger);
    UnsentMembers(c, s);
    FateOf(s.ledger, k, Members(Ids(s.ledger.published)), Members(Unsent(s.workers)));
  }

  /** Some event announces a row stored for the message. */
  ghost predicate MessageAnnounced(l: Ledger, pos: nat) {
    exists k :: k in Ids(l.published) && k in l.owner && l.owner[k] == Message(pos)
  }

  /** Exactly when a message, acknowledged or not, has had its event sent: it is booked, no step of the run
      lost the event of its row, and no worker is about to send it. */
  lemma MessageAnnouncedIff(c: Config, s0: State, steps: seq<Step>, s: State, pos: nat)
    requires Reached(c, s0, steps, s) && pos < |s.group.stream| && Hash(s.group.stream[pos].id) != 0
    ensures MessageAnnounced(s.ledger, pos) <==>
            pos in s.ledger.bookedAs && !RunLoses(c, s0, steps, s.ledger.bookedAs[pos]) &&
            forall w :: 0 <= w < |s.workers| ==> !Holds(s.workers[w].pc, s.ledger.bookedAs[pos])
  {
    ReachedInv(c, s0, steps, s);
    OwnersAreBooked(s.ledger, pos);
    if pos in s.ledger.bookedAs {
      var j := s.ledger.bookedAs[pos];
      AnnouncedIff(c, s0, steps, s, j);
      UnsentIffHeld(s.workers, j);
      forall k | k in s.ledger.owner && s.ledger.owner[k] == Message(pos) ensures k == j {
        BookedOnce(c, s0, steps, s, j, k);
      }
    }
  }

  lemma OwnersAreBooked(l: Ledger, pos: nat)
    requires BooksOk(l)
    ensures pos in l.bookedAs ==> l.bookedAs[pos] in l.owner && l.owner[l.bookedAs[pos]] == Message(pos)
    ensures forall k :: k in l.owner && l.owner[k] == Message(pos) ==> pos in l.bookedAs
  {
    forall k | k in l.owner && l.owner[k] == Message(pos) ensures pos in l.bookedAs {
      assert l.owner[k].Message?;
    }
  }
}
