/** A run in which a message is acknowledged although its event was never sent: the publish is refused
    once, and the redelivered message then meets its own row and is taken for done. */
module LostEvent {
  import opened Orders
  import opened Booking
  import opened StreamHash
  import opened Machine
  import opened Solo

  lemma OneArrives(c: Config, s0: State, a: Entry) returns (steps: seq<Step>)
    requires Initial(s0) && s0.workers != []
    ensures Runs(c, s0, steps)
    ensures var s := Final(c, s0, steps);
            s.group == Group([a], 1, {0}, {}, {}) && s.ledger == s0.ledger &&
            s.workers != [] && s.workers[0] == Worker(Consumer, Ready, [0])
  {
    var s1 := Apply(c, s0, Append(a));
    var s2 := Apply(c, s1, Restart(0, Consumer));
    ReadOne(s2, a);
    RunsCons(c, s2, Read(0, 1), []);
    RunsCons(c, s1, Restart(0, Consumer), [Read(0, 1)] + []);
    RunsCons(c, s0, Append(a), [Restart(0, Consumer)] + ([Read(0, 1)] + []));
    steps := [Append(a)] + ([Restart(0, Consumer)] + ([Read(0, 1)] + []));
  }

  lemma ReadOne(s: State, a: Entry)
    requires s.group == Group([a], 0, {}, {}, {}) && s.workers != [] && s.workers[0] == Worker(Consumer, Ready, [])
    ensures Enabled(s, Read(0, 1)) && NextBatch(s.group, 1) == [0]
    ensures NewGroup(s, Read(0, 1)) == Group([a], 1, {0}, {}, {})
  {
    assert NextBatch(s.group, 1) == [0];
  }

  /** The first delivery: the row is stored and its publish refused. */
  lemma PublishRefused(c: Config, s: State, world: World) returns (steps: seq<Step>)
    requires TakesNext(s, 0, 0) && HasUid(s.group.stream[0]) && s.ledger.orders == map[]
    requires OnSale(world.lookup) && Hash(s.group.stream[0].id) != 0
    ensures Runs(c, s, steps)
    ensures var f := Final(c, s, steps);
            f.group == s.group && f.ledger.published == s.ledger.published &&
            KeyTaken(f.ledger.orders, c.productId, Hash(s.group.stream[0].id)) &&
            f.workers == s.workers[0 := s.workers[0].(batch := s.workers[0].batch[1..])]
  {
    var s1 := Apply(c, s, Take(0));
    var s2 := Apply(c, s1, Prepare(0, world));
    var rest := StoreAndRefuse(c, s2, s2.workers[0].pc.row);
    RunsCons(c, s1, Prepare(0, world), rest);
    steps := [Prepare(0, world)] + rest;
    RunsCons(c, s, Take(0), steps);
    steps := [Take(0)] + steps;
  }

  lemma StoreAndRefuse(c: Config, s: State, row: Row) returns (steps: seq<Step>)
    requires s.workers != [] && s.workers[0].pc == Inserting(Message(0), row) && s.ledger.orders == map[]
    ensures Runs(c, s, steps)
    ensures var f := Final(c, s, steps);
            f.group == s.group && f.ledger.published == s.ledger.published &&
            KeyTaken(f.ledger.orders, row.productId, row.reqId) && f.workers == s.workers[0 := s.workers[0].(pc := Ready)]
  {
    var s1 := Apply(c, s, Insert(0, NoFault));
    assert HasKey(s1.ledger.orders[row.orderId], row.productId, row.reqId);
    RunsCons(c, s1, Step.Publish(0, Refused), []);
    RunsCons(c, s, Insert(0, NoFault), [Step.Publish(0, Refused)] + []);
    steps := [Insert(0, NoFault)] + ([Step.Publish(0, Refused)] + []);
  }

  /** The entry goes idle and the worker, started again as the reclaimer, claims it. */
  lemma ClaimOne(c: Config, s: State, a: Entry) returns (steps: seq<Step>)
    requires s.group == Group([a], 1, {0}, {}, {}) && s.workers != [] && s.workers[0] == Worker(Consumer, Ready, [])
    ensures Runs(c, s, steps)
    ensures var f := Final(c, s, steps);
            f.group == s.group && f.ledger == s.ledger && TakesNext(f, 0, 0)
  {
    var s1 := Apply(c, s, Crash(0));
    var s2 := Apply(c, s1, Restart(0, Reclaimer(0)));
    var s3 := Apply(c, s2, GoIdle(0));
    OnlyZero(s3.group.idle);
    RunsCons(c, s3, Claim(0, 1), []);
    RunsCons(c, s2, GoIdle(0), [Claim(0, 1)] + []);
    RunsCons(c, s1, Restart(0, Reclaimer(0)), [GoIdle(0)] + ([Claim(0, 1)] + []));
    steps := [Restart(0, Reclaimer(0))] + ([GoIdle(0)] + ([Claim(0, 1)] + []));
    RunsCons(c, s, Crash(0), steps);
    steps := [Crash(0)] + steps;
  }

  lemma OnlyZero(idle: set<nat>)
    requires idle == {0}
    ensures Ascending(idle, 0, 1) == [0]
  {
    assert Ascending(idle, 1, 1) == [];
  }

  /** The second delivery meets the row of the first and is acknowledged. */
  lemma DuplicateAcked(c: Config, s: State, world: World) returns (steps: seq<Step>)
    requires TakesNext(s, 0, 0) && HasUid(s.group.stream[0]) && OnSale(world.lookup)
    requires Hash(s.group.stream[0].id) != 0 && KeyTaken(s.ledger.orders, c.productId, Hash(s.group.stream[0].id))
    ensures Runs(c, s, steps)
    ensures var f := Final(c, s, steps);
            f.group.acked == s.group.acked + {0} && f.group.stream == s.group.stream &&
            f.ledger.orders == s.ledger.orders && f.ledger.published == s.ledger.published
  {
    var s1 := Apply(c, s, Take(0));
    var s2 := Apply(c, s1, Prepare(0, world));
    var s3 := Apply(c, s2, Insert(0, NoFault));
    RunsCons(c, s3, Ack(0, NoFault), []);
    RunsCons(c, s2, Insert(0, NoFault), [Ack(0, NoFault)] + []);
    RunsCons(c, s1, Prepare(0, world), [Insert(0, NoFault)] + ([Ack(0, NoFault)] + []));
    steps := [Prepare(0, world)] + ([Insert(0, NoFault)] + ([Ack(0, NoFault)] + []));
    RunsCons(c, s, Take(0), steps);
    steps := [Take(0)] + steps;
  }

  /** Acknowledged and booked, yet never announced. */
  lemma AckedWithoutEvent(c: Config, s0: State, a: Entry, v: World, w: World) returns (steps: seq<Step>)
    requires Initial(s0) && s0.workers != [] && a.uid != "" && a.uid != "<nil>" && Hash(a.id) != 0
    requires OnSale(v.lookup) && OnSale(w.lookup)
    ensures Runs(c, s0, steps)
    ensures var s := Final(c, s0, steps);
            s.group.acked == {0} && KeyTaken(s.ledger.orders, c.productId, Hash(a.id)) && s.ledger.published == []
  {
    var one := OneArrives(c, s0, a);
    var s1 := Final(c, s0, one);
    var two := PublishRefused(c, s1, v);
    var s2 := Final(c, s1, two);
    var three := ClaimOne(c, s2, a);
    var s3 := Final(c, s2, three);
    var four := DuplicateAcked(c, s3, w);
    RunsConcat(c, s2, three, four);
    RunsConcat(c, s1, two, three + four);
    RunsConcat(c, s0, one, two + (three + four));
    steps := one + (two + (three + four));
  }
}
