/** A worker left alone. From any state of the machine in which a worker is about to take a message,
    the steps of that worker alone do to table, events, pending list and acknowledgements exactly what the
    loop body does, so the two views of the consumer agree. */
module Solo {
  import opened Orders
  import opened Booking
  import opened Int64
  import opened IdGenerators
  import opened StreamHash
  import opened Machine
  import Loops

  lemma RunsCons(c: Config, s: State, step: Step, rest: seq<Step>)
    requires Enabled(s, step) && Runs(c, Apply(c, s, step), rest)
    ensures Runs(c, s, [step] + rest) && Final(c, s, [step] + rest) == Final(c, Apply(c, s, step), rest)
  {
    assert ([step] + rest)[1..] == rest;
  }

  lemma {:induction false} RunsConcat(c: Config, s: State, xs: seq<Step>, ys: seq<Step>)
    requires Runs(c, s, xs) && Runs(c, Final(c, s, xs), ys)
    ensures Runs(c, s, xs + ys) && Final(c, s, xs + ys) == Final(c, Final(c, s, xs), ys)
    decreases |xs|
  {
    if xs == [] {
      assert xs + ys == ys;
    } else {
      var s' := Apply(c, s, xs[0]);
      RunsConcat(c, s', xs[1..], ys);
      RunsCons(c, s, xs[0], xs[1..] + ys);
      assert xs + ys == [xs[0]] + (xs[1..] + ys);
    }
  }

  /** Only worker w has moved, it is ready for its next message, and nothing was added or delivered. */
  ghost predicate Done(s: State, f: State, w: nat) {
    w < |s.workers| && f.workers == s.workers[w := s.workers[w].(pc := Ready)] &&
    f.group.stream == s.group.stream && f.group.delivered == s.group.delivered
  }

  function AckFault(ackFails: bool): Fault {
    if ackFails then Refused else NoFault
  }

  /** Nothing but an insert, a publish and an acknowledgement of worker w, which end as told. */
  predicate Writes(steps: seq<Step>, w: nat, insert: Fault, publish: Fault, ackFails: bool) {
    forall i :: 0 <= i < |steps| ==>
      steps[i] == Insert(w, insert) || steps[i] == Step.Publish(w, publish) || steps[i] == Ack(w, AckFault(ackFails))
  }

  /** Instance ids sent, in order; 0 stands for none. */
  function SentIds(published: seq<Sent>): seq<int> {
    seq(|published|, i requires 0 <= i < |published| => InstanceOf(published[i].instanceId))
  }

  function InstanceOf(id: Option<int>): int {
    if id.Some? then id.value else 0
  }

  function EventIds(events: seq<Event>): seq<int> {
    seq(|events|, i requires 0 <= i < |events| => events[i].instanceId)
  }

  lemma FinishAck(c: Config, s: State, w: nat, insert: Fault, publish: Fault, ackFails: bool) returns (steps: seq<Step>)
    requires w < |s.workers| && s.workers[w].pc.Acking?
    ensures Runs(c, s, steps) && Done(s, Final(c, s, steps), w)
    ensures var g, pos := Final(c, s, steps).group, s.workers[w].pc.pos;
            g.pending == (if ackFails then s.group.pending else s.group.pending - {pos}) &&
            g.acked == (if ackFails then s.group.acked else s.group.acked + {pos})
    ensures Final(c, s, steps).ledger == s.ledger && Writes(steps, w, insert, publish, ackFails)
  {
    var step := Ack(w, AckFault(ackFails));
    RunsCons(c, s, step, []);
    steps := [step] + [];
  }

  lemma FinishPublish(c: Config, s: State, w: nat, insert: Fault, fault: Fault, ackFails: bool) returns (steps: seq<Step>)
    requires w < |s.workers| && s.workers[w].pc.Publishing? && s.workers[w].pc.job.Message?
    ensures Runs(c, s, steps) && Done(s, Final(c, s, steps), w)
    ensures var g, pos := Final(c, s, steps).group, s.workers[w].pc.job.pos;
            g.pending == (if fault != NoFault || ackFails then s.group.pending else s.group.pending - {pos}) &&
            g.acked == (if fault != NoFault || ackFails then s.group.acked else s.group.acked + {pos})
    ensures var l := Final(c, s, steps).ledger;
            l.orders == s.ledger.orders && l.bookedAs == s.ledger.bookedAs && l.drafted == s.ledger.drafted &&
            SentIds(l.published) == SentIds(s.ledger.published) + SentFor(s.workers[w].pc.row, fault)
    ensures Writes(steps, w, insert, fault, ackFails)
  {
    var step := Step.Publish(w, fault);
    var s' := Apply(c, s, step);
    var rest := [];
    if fault == NoFault {
      rest := FinishAck(c, s', w, insert, fault, ackFails);
    }
    RunsCons(c, s, step, rest);
    steps := [step] + rest;
  }

  function SentFor(row: Row, fault: Fault): seq<int> {
    if fault == Refused then [] else [InstanceOf(row.instanceId)]
  }

  lemma FinishInsert(c: Config, s: State, w: nat, insert: Fault, publish: Fault,
                     ackFails: bool) returns (steps: seq<Step>)
    requires w < |s.workers| && s.workers[w].pc.Inserting? && s.workers[w].pc.job.Message?
    ensures Runs(c, s, steps) && Done(s, Final(c, s, steps), w)
    ensures var row := s.workers[w].pc.row;
            var reply := InsertReply(s.ledger.orders, row, insert);
            var acks := !ackFails && (reply == Duplicate || (reply == Stored && publish == NoFault));
            var g, pos := Final(c, s, steps).group, s.workers[w].pc.job.pos;
            g.pending == (if acks then s.group.pending - {pos} else s.group.pending) &&
            g.acked == (if acks then s.group.acked + {pos} else s.group.acked)
    ensures Final(c, s, steps).ledger.orders == Inserted(s.ledger.orders, s.workers[w].pc.row, insert)
    ensures insert != Refused && Clashes(s.ledger.orders, s.workers[w].pc.row) ==>
              Final(c, s, steps).ledger.bookedAs == s.ledger.bookedAs
    ensures var row := s.workers[w].pc.row;
            var stored := InsertReply(s.ledger.orders, row, insert) == Stored;
            SentIds(Final(c, s, steps).ledger.published)
            == SentIds(s.ledger.published) + (if stored then SentFor(row, publish) else [])
    ensures Final(c, s, steps).ledger.drafted == s.ledger.drafted && Writes(steps, w, insert, publish, ackFails)
  {
    var step := Insert(w, insert);
    var s' := Apply(c, s, step);
    var reply := InsertReply(s.ledger.orders, s.workers[w].pc.row, insert);
    var rest := [];
    if reply == Stored {
      rest := FinishPublish(c, s', w, insert, publish, ackFails);
    } else if reply == Duplicate {
      rest := FinishAck(c, s', w, insert, publish, ackFails);
    }
    RunsCons(c, s, step, rest);
    steps := [step] + rest;
  }

  /** The position a worker takes next. */
  predicate TakesNext(s: State, w: nat, pos: nat) {
    w < |s.workers| && s.workers[w].pc == Ready && s.workers[w].batch != [] &&
    s.workers[w].batch[0] == pos < |s.group.stream|
  }

  ghost predicate Matches(c: Config, s: State, f: State, w: nat, pos: nat, world: World, ackFails: bool)
    requires pos < |s.group.stream|
  {
    var p := Loops.Handle(c, s.group.stream[pos], pos, world, ackFails,
                          Loops.Progress(s.ledger.orders, [], s.group.pending, s.group.acked));
    f.ledger.orders == p.table && f.group.pending == p.pending && f.group.acked == p.acked &&
    SentIds(f.ledger.published) == SentIds(s.ledger.published) + EventIds(p.events)
  }

  /** The worker has taken its next message and is done with it. */
  ghost predicate Took(s: State, f: State, w: nat) {
    w < |s.workers| && s.workers[w].batch != [] &&
    f.workers == s.workers[w := s.workers[w].(pc := Ready, batch := s.workers[w].batch[1..])] &&
    f.group.stream == s.group.stream && f.group.delivered == s.group.delivered
  }

  /** A worker takes one message and, unless it is skipped, drafts once in this world and writes. */
  predicate OneHandling(steps: seq<Step>, w: nat, world: World, ackFails: bool) {
    steps == [Take(w)] ||
    (|steps| >= 2 && steps[0] == Take(w) && steps[1] == Prepare(w, world) &&
     Writes(steps[2..], w, world.insert, world.publish, ackFails))
  }

  /** What was drafted meanwhile was drafted for the message at pos, with the order id of this world. */
  ghost predicate DraftedOnly(c: Config, s: State, f: State, pos: nat, world: World)
    requires pos < |s.group.stream|
  {
    s.ledger.drafted <= f.ledger.drafted &&
    forall d :: d in f.ledger.drafted ==>
      d in s.ledger.drafted ||
      (d.1 == Message(pos) && d.0.orderId == OrderId(world.orderMs, c.hash(s.group.stream[pos].uid)))
  }

  /** The bridge: running alone, a worker turns the state as the loop body says and comes back for
      the rest of its batch. */
  lemma SoloIsLoopBody(c: Config, s: State, w: nat, pos: nat, world: World, ackFails: bool) returns (steps: seq<Step>)
    requires TakesNext(s, w, pos)
    ensures Runs(c, s, steps)
    ensures var f := Final(c, s, steps);
            Matches(c, s, f, w, pos, world, ackFails) && Took(s, f, w)
    ensures OneHandling(steps, w, world, ackFails) && DraftedOnly(c, s, Final(c, s, steps), pos, world)
  {
    var take := Take(w);
    var s1 := Apply(c, s, take);
    var rest := [];
    if HasUid(s.group.stream[pos]) {
      rest := SoloHandler(c, s1, w, pos, world, ackFails);
    }
    RunsCons(c, s, take, rest);
    steps := [take] + rest;
    assert rest != [] ==> steps[2..] == rest[1..];
  }

  lemma SoloHandler(c: Config, s: State, w: nat, pos: nat, world: World, ackFails: bool) returns (steps: seq<Step>)
    requires w < |s.workers| && pos < |s.group.stream| && s.workers[w].pc == Drafting(Message(pos))
    requires HasUid(s.group.stream[pos])
    ensures Runs(c, s, steps) && Done(s, Final(c, s, steps), w)
    ensures Matches(c, s, Final(c, s, steps), w, pos, world, ackFails)
    ensures steps != [] && steps[0] == Prepare(w, world) && Writes(steps[1..], w, world.insert, world.publish, ackFails)
    ensures DraftedOnly(c, s, Final(c, s, steps), pos, world)
  {
    var prepare := Prepare(w, world);
    var s1 := Apply(c, s, prepare);
    var draft := DraftOf(c, s.group.stream, Message(pos), world);
    var rest := [];
    if draft.Ok? {
      rest := FinishInsert(c, s1, w, world.insert, world.publish, ackFails);
    }
    PrepareDrafts(c, s, w, pos, world);
    BodyIs(c, s.group.stream[pos], pos, world, ackFails,
           Loops.Progress(s.ledger.orders, [], s.group.pending, s.group.acked), draft);
    RunsCons(c, s, prepare, rest);
    steps := [prepare] + rest;
    assert steps[1..] == rest;
  }

  lemma PrepareDrafts(c: Config, s: State, w: nat, pos: nat, world: World)
    requires w < |s.workers| && pos < |s.group.stream| && s.workers[w].pc == Drafting(Message(pos))
    ensures DraftedOnly(c, s, Apply(c, s, Prepare(w, world)), pos, world)
  {}

  /** The loop body, by what the draft, the insert and the publish answer. */
  lemma BodyIs(c: Config, e: Entry, pos: nat, world: World, ackFails: bool, p: Loops.Progress, draft: Result<Order>)
    requires HasUid(e) && draft == Draft(c.productId, e.uid, Hash(e.id), world, c.hash(e.uid))
    ensures var p' := Loops.Handle(c, e, pos, world, ackFails, p);
            if draft.Err? then p' == p
            else
              var reply := InsertReply(p.table, ToRow(draft.value), world.insert);
              var acks := !ackFails && (reply == Duplicate || (reply == Stored && world.publish == NoFault));
              p'.table == Inserted(p.table, ToRow(draft.value), world.insert) &&
              p'.pending == (if acks then p.pending - {pos} else p.pending) &&
              p'.acked == (if acks then p.acked + {pos} else p.acked) &&
              EventIds(p'.events) == EventIds(p.events) +
                                     (if reply == Stored then SentFor(ToRow(draft.value), world.publish) else [])
  {
    if draft.Ok? {
      BookedIs(p.table, p.events, c.productId, e.uid, Hash(e.id), world, c.hash(e.uid), draft.value,
               InsertReply(p.table, ToRow(draft.value), world.insert));
    }
  }

  lemma BookedIs(t: Table, events: seq<Event>, productId: int, uid: string, key: int, world: World, hash: Word,
                 o: Order, reply: Reply)
    requires Draft(productId, uid, key, world, hash) == Ok(o) && reply == InsertReply(t, ToRow(o), world.insert)
    ensures var b := Booked(t, events, productId, uid, key, world, hash);
            && b.table == Inserted(t, ToRow(o), world.insert)
            && (Acknowledges(b.result) <==> reply == Duplicate || (reply == Stored && world.publish == NoFault))
            && EventIds(b.events) == EventIds(events) + (if reply == Stored then SentFor(ToRow(o), world.publish) else [])
  {}
}
