/** Nothing is stuck: from every state the consumer can get into, some continuation acknowledges every
    entry that can be acknowledged at all. */
module Recovery {
  import opened Orders
  import opened IdGenerators
  import opened Booking
  import opened Counting
  import opened StreamHash
  import opened Machine
  import opened Guarantees
  import Delivery
  import Loops
  import opened Solo
  import opened Exactness
  import opened Refinement

  // ---------------------------------------------------------------------------------------------
  // Order ids for all
  // ---------------------------------------------------------------------------------------------

  /** The order id that message p draws in its world. */
  function IdFor(c: Config, stream: seq<Entry>, world: nat -> World, p: nat): int
    requires p < |stream|
  {
    OrderId(world(p).orderMs, c.hash(stream[p].uid))
  }

  /** A supply of worlds in which every message draws an order id of its own. */
  ghost predicate Supply(c: Config, s: State, world: nat -> World) {
    && (forall p: nat :: p < |s.group.stream| ==>
          FreshFor(s.ledger.drafted, IdFor(c, s.group.stream, world, p), Message(p)))
    && (forall p: nat, q: nat :: p < q < |s.group.stream| ==>
          IdFor(c, s.group.stream, world, p) != IdFor(c, s.group.stream, world, q))
  }

  ghost predicate AllSmooth(world: nat -> World) {
    forall p: nat :: Loops.Smooth(world(p))
  }

  /** What the state f has drafted beyond s is the draft of some message in its world. */
  ghost predicate DraftsFrom(c: Config, s: State, f: State, world: nat -> World) {
    f.group.stream == s.group.stream && s.ledger.drafted <= f.ledger.drafted &&
    forall d :: d in f.ledger.drafted ==> d in s.ledger.drafted || DraftIn(c, s.group.stream, world, d)
  }

  ghost predicate DraftIn(c: Config, stream: seq<Entry>, world: nat -> World, d: (Row, Job)) {
    d.1.Message? && d.1.pos < |stream| && d.0.orderId == IdFor(c, stream, world, d.1.pos)
  }

  lemma SupplyStays(c: Config, s: State, f: State, world: nat -> World)
    requires Supply(c, s, world) && DraftsFrom(c, s, f, world)
    ensures Supply(c, f, world)
  {
    forall q: nat | q < |s.group.stream|
      ensures FreshFor(f.ledger.drafted, IdFor(c, s.group.stream, world, q), Message(q))
    {
      assert FreshFor(s.ledger.drafted, IdFor(c, s.group.stream, world, q), Message(q));
      forall d | d in f.ledger.drafted && d.0.orderId == IdFor(c, s.group.stream, world, q) ensures d.1 == Message(q) {
        if DraftIn(c, s.group.stream, world, d) {
          OwnId(c, s, world, d.1.pos, q);
        }
      }
    }
  }

  lemma OwnId(c: Config, s: State, world: nat -> World, p: nat, q: nat)
    requires Supply(c, s, world) && p < |s.group.stream| && q < |s.group.stream|
    requires IdFor(c, s.group.stream, world, p) == IdFor(c, s.group.stream, world, q)
    ensures p == q
  {}

  // ---------------------------------------------------------------------------------------------
  // A supply exists
  // ---------------------------------------------------------------------------------------------

  /** As many stamps as 46 bits hold, save for 0. */
  const STAMPS: nat := 0x3FFF_FFFF_FFFF

  lemma FreeUpto(used: set<int>, n: nat) returns (k: int)
    requires |used| < n
    ensures 1 <= k <= n && k !in used
  {
    UptoCount(n);
    var free := Upto(n) - used;
    if free == {} {
      SubsetCount(Upto(n), used);
    }
    k := Member(free);
  }

  /** Stamps that are not used and no two alike. */
  lemma {:induction false} FreeStamps(used: set<int>, n: nat, total: nat) returns (ks: seq<int>)
    requires |used| + n <= total
    ensures |ks| == n && (forall i, j :: 0 <= i < j < n ==> ks[i] != ks[j])
    ensures forall i :: 0 <= i < n ==> 1 <= ks[i] <= total && ks[i] !in used
    decreases n
  {
    ks := [];
    if n > 0 {
      var k := FreeUpto(used, total);
      var rest := FreeStamps(used + {k}, n - 1, total);
      ks := [k] + rest;
    }
  }

  function StampsOf(drafted: set<(Row, Job)>): set<int> {
    set d | d in drafted :: d.0.orderId / 0x8000
  }

  lemma {:induction false} StampsCount(drafted: set<(Row, Job)>)
    ensures |StampsOf(drafted)| <= |drafted|
  {
    if drafted != {} {
      var d :| d in drafted;
      StampsCount(drafted - {d});
      assert StampsOf(drafted) == StampsOf(drafted - {d}) + {d.0.orderId / 0x8000};
    }
  }

  /** The world with a clock of each message's own. */
  function ClockedAt(w: World, ks: seq<int>): nat -> World {
    (p: nat) => w.(orderMs := EPOCH_MS + (if p < |ks| then ks[p] else 0))
  }

  lemma ClockedId(c: Config, stream: seq<Entry>, w: World, ks: seq<int>, p: nat)
    requires p < |stream| == |ks| && 1 <= ks[p] <= STAMPS
    ensures IdFor(c, stream, ClockedAt(w, ks), p) / 0x8000 == ks[p]
  {
    OrderIdValue(EPOCH_MS + ks[p], c.hash(stream[p].uid));
    StampInWindow(EPOCH_MS + ks[p]);
  }

  /** As long as drafts and entries number less than the 46 bits of time can tell apart, some readings of the
      clock give every message an order id of its own. */
  lemma SupplyExists(c: Config, s: State, w: World) returns (world: nat -> World)
    requires Loops.Smooth(w) && |s.ledger.drafted| + |s.group.stream| <= STAMPS
    ensures AllSmooth(world) && Supply(c, s, world)
  {
    StampsCount(s.ledger.drafted);
    var ks := FreeStamps(StampsOf(s.ledger.drafted), |s.group.stream|, STAMPS);
    world := ClockedAt(w, ks);
    forall p: nat | p < |s.group.stream| ensures IdFor(c, s.group.stream, world, p) / 0x8000 == ks[p] {
      ClockedId(c, s.group.stream, w, ks, p);
    }
    ClockedSupply(c, s, world, ks);
  }

  lemma ClockedSupply(c: Config, s: State, world: nat -> World, ks: seq<int>)
    requires |ks| == |s.group.stream| && (forall i, j :: 0 <= i < j < |ks| ==> ks[i] != ks[j])
    requires forall i :: 0 <= i < |ks| ==> ks[i] !in StampsOf(s.ledger.drafted)
    requires forall p: nat :: p < |ks| ==> IdFor(c, s.group.stream, world, p) / 0x8000 == ks[p]
    ensures Supply(c, s, world)
  {
    forall p: nat | p < |ks| ensures FreshFor(s.ledger.drafted, IdFor(c, s.group.stream, world, p), Message(p)) {
      forall d | d in s.ledger.drafted ensures d.0.orderId != IdFor(c, s.group.stream, world, p) {
        assert d.0.orderId / 0x8000 in StampsOf(s.ledger.drafted);
      }
    }
  }

  // ---------------------------------------------------------------------------------------------
  // Steps of one worker for which nothing fails
  // ---------------------------------------------------------------------------------------------

  /** Nothing arrives, only the first worker moves, it may stop and start again, but nothing it asks for
      fails. */
  predicate Unfailing(step: Step) {
    match step
    case Append(_) => false
    case GoIdle(_) => true
    case Prepare(w, world) => w == 0 && Loops.Smooth(world)
    case Insert(w, fault) => w == 0 && fault == NoFault
    case Publish(w, fault) => w == 0 && fault == NoFault
    case Ack(w, fault) => w == 0 && fault == NoFault
    case _ => step.w == 0
  }

  predicate AllUnfailing(steps: seq<Step>) {
    forall i :: 0 <= i < |steps| ==> Unfailing(steps[i])
  }

  predicate DraftsNothing(steps: seq<Step>) {
    forall i :: 0 <= i < |steps| ==> !steps[i].Append? && !steps[i].Prepare?
  }

  lemma DisciplinedCons(c: Config, s: State, step: Step, rest: seq<Step>, floor: int)
    requires Enabled(s, step) && Disciplined(c, s, step, floor)
    requires Runs(c, Apply(c, s, step), rest) && DisciplinedRun(c, Apply(c, s, step), rest, floor)
    ensures Runs(c, s, [step] + rest) && DisciplinedRun(c, s, [step] + rest, floor)
  {
    assert ([step] + rest)[1..] == rest;
  }

  lemma HeadFirst<T>(xs: seq<T>, ys: seq<T>)
    requires xs != []
    ensures [xs[0]] + (xs[1..] + ys) == xs + ys
  {}

  /** The first step of a disciplined run, and the rest. */
  lemma DisciplinedHead(c: Config, s: State, xs: seq<Step>, floor: int)
    requires xs != [] && Runs(c, s, xs) && DisciplinedRun(c, s, xs, floor)
    ensures Enabled(s, xs[0]) && Disciplined(c, s, xs[0], floor)
    ensures Runs(c, Apply(c, s, xs[0]), xs[1..]) && DisciplinedRun(c, Apply(c, s, xs[0]), xs[1..], floor)
    ensures Final(c, s, xs) == Final(c, Apply(c, s, xs[0]), xs[1..])
  {}

  /** A run from s to t and one from t on. */
  lemma {:induction false} DisciplinedConcat(c: Config, s: State, xs: seq<Step>, t: State, ys: seq<Step>, floor: int)
    requires Runs(c, s, xs) && t == Final(c, s, xs) && DisciplinedRun(c, s, xs, floor)
    requires Runs(c, t, ys) && DisciplinedRun(c, t, ys, floor)
    ensures Runs(c, s, xs + ys) && DisciplinedRun(c, s, xs + ys, floor)
    decreases |xs|
  {
    if xs == [] {
      assert xs + ys == ys;
    } else {
      DisciplinedHead(c, s, xs, floor);
      HeadFirst(xs, ys);
      DisciplinedConcat(c, Apply(c, s, xs[0]), xs[1..], t, ys, floor);
      DisciplinedCons(c, s, xs[0], xs[1..] + ys, floor);
    }
  }

  lemma {:induction false} QuietIsDisciplined(c: Config, s: State, steps: seq<Step>, floor: int)
    requires Runs(c, s, steps) && DraftsNothing(steps)
    ensures DisciplinedRun(c, s, steps, floor)
    decreases |steps|
  {
    if steps != [] {
      QuietIsDisciplined(c, Apply(c, s, steps[0]), steps[1..], floor);
    }
  }

  lemma PrepareIsDisciplined(c: Config, s: State, w: nat, p: nat, world: World, floor: int)
    requires w < |s.workers| && p < |s.group.stream| && s.workers[w].pc == Drafting(Message(p))
    requires FreshFor(s.ledger.drafted, OrderId(world.orderMs, c.hash(s.group.stream[p].uid)), Message(p))
    ensures Disciplined(c, s, Prepare(w, world), floor)
  {
    PreparedIs(world.lookup, OrderId(world.orderMs, c.hash(s.group.stream[p].uid)), s.group.stream[p].uid, c.productId,
               ReqKey(Hash(s.group.stream[p].id), world, c.hash(s.group.stream[p].uid)),
               InstanceId(world.instanceMs, c.hash(s.group.stream[p].uid)), world.nowMs);
  }

  /** Handling one message is disciplined if the order id it draws is its own. */
  lemma HandlingIsDisciplined(c: Config, s: State, steps: seq<Step>, w: nat, p: nat, world: World, floor: int)
    requires Runs(c, s, steps) && TakesNext(s, w, p) && OneHandling(steps, w, world, false)
    requires FreshFor(s.ledger.drafted, OrderId(world.orderMs, c.hash(s.group.stream[p].uid)), Message(p))
    ensures DisciplinedRun(c, s, steps, floor)
  {
    var s1 := Apply(c, s, Take(w));
    if |steps| > 1 {
      assert steps[1..][0] == Prepare(w, world) && steps[1..][1..] == steps[2..];
      PrepareIsDisciplined(c, s1, w, p, world, floor);
      QuietIsDisciplined(c, Apply(c, s1, Prepare(w, world)), steps[2..], floor);
    }
  }

  lemma LossesCons(c: Config, s: State, step: Step, rest: seq<Step>)
    requires Enabled(s, step) && Runs(c, Apply(c, s, step), rest)
    ensures Runs(c, s, [step] + rest)
    ensures Losses(c, s, [step] + rest) == (if LosesOne(s, step) then 1 else 0) + Losses(c, Apply(c, s, step), rest)
  {
    assert ([step] + rest)[1..] == rest;
  }

  lemma {:induction false} LossesConcat(c: Config, s: State, xs: seq<Step>, ys: seq<Step>)
    requires Runs(c, s, xs) && Runs(c, Final(c, s, xs), ys)
    ensures Runs(c, s, xs + ys) && Losses(c, s, xs + ys) == Losses(c, s, xs) + Losses(c, Final(c, s, xs), ys)
    decreases |xs|
  {
    if xs == [] {
      assert xs + ys == ys;
    } else {
      LossesConcat(c, Apply(c, s, xs[0]), xs[1..], ys);
      LossesCons(c, s, xs[0], xs[1..] + ys);
      assert xs + ys == [xs[0]] + (xs[1..] + ys);
    }
  }

  /** A worker for which nothing fails loses an event only by stopping. */
  lemma {:induction false} NoLosses(c: Config, s: State, steps: seq<Step>)
    requires Runs(c, s, steps) && AllUnfailing(steps) && forall i :: 0 <= i < |steps| ==> !steps[i].Crash?
    ensures Losses(c, s, steps) == 0
    decreases |steps|
  {
    if steps != [] {
      NoLosses(c, Apply(c, s, steps[0]), steps[1..]);
    }
  }

  // ---------------------------------------------------------------------------------------------
  // One entry after the other
  // ---------------------------------------------------------------------------------------------

  /** The first worker is a reclaimer about to claim from the cursor. */
  predicate Claiming(s: State, start: nat) {
    s.workers != [] && s.workers[0] == Worker(Reclaimer(start), Ready, [])
  }

  /** The steps lead from s to f. They are the first worker's, nothing fails and no event is lost. What they
      draft is drafted in the given worlds, and if these are a supply the steps are disciplined. */
  ghost predicate Leads(c: Config, s: State, steps: seq<Step>, f: State, world: nat -> World, floor: int) {
    && Runs(c, s, steps) && f == Final(c, s, steps)
    && AllUnfailing(steps) && Losses(c, s, steps) == 0
    && DraftsFrom(c, s, f, world)
    && (Supply(c, s, world) ==> DisciplinedRun(c, s, steps, floor))
  }

  lemma LeadsOn(c: Config, s: State, xs: seq<Step>, t: State, ys: seq<Step>, f: State, world: nat -> World, floor: int)
    requires Leads(c, s, xs, t, world, floor) && Leads(c, t, ys, f, world, floor)
    ensures Leads(c, s, xs + ys, f, world, floor)
  {
    RunsConcat(c, s, xs, ys);
    LossesConcat(c, s, xs, ys);
    if Supply(c, s, world) {
      SupplyStays(c, s, t, world);
      DisciplinedConcat(c, s, xs, t, ys, floor);
    }
  }

  /** Some steps lead from s to f. */
  ghost predicate Reaches(c: Config, s: State, f: State, world: nat -> World, floor: int) {
    f.group.stream == s.group.stream && exists steps :: Leads(c, s, steps, f, world, floor)
  }

  lemma ReachesOn(c: Config, s: State, t: State, f: State, world: nat -> World, floor: int)
    requires Reaches(c, s, t, world, floor) && Reaches(c, t, f, world, floor)
    ensures Reaches(c, s, f, world, floor)
  {
    var xs :| Leads(c, s, xs, t, world, floor);
    var ys :| Leads(c, t, ys, f, world, floor);
    LeadsOn(c, s, xs, t, ys, f, world, floor);
  }

  lemma ReachesItself(c: Config, s: State, world: nat -> World, floor: int)
    ensures Reaches(c, s, s, world, floor)
  {
    assert Leads(c, s, [], s, world, floor);
  }

  /** A step that drafts and appends nothing. */
  lemma ReachesByStep(c: Config, s: State, step: Step, world: nat -> World, floor: int)
    requires Enabled(s, step) && Unfailing(step) && !step.Prepare? && !LosesOne(s, step)
    ensures Reaches(c, s, Apply(c, s, step), world, floor)
  {
    RunsCons(c, s, step, []);
    assert [step] + [] == [step];
    QuietIsDisciplined(c, s, [step], floor);
    DraftsStay(c, s, step);
    assert Losses(c, s, [step]) == 0;
    assert Leads(c, s, [step], Apply(c, s, step), world, floor);
  }

  lemma DraftsStay(c: Config, s: State, step: Step)
    requires Enabled(s, step) && !step.Append? && !step.Prepare?
    ensures NewLedger(c, s, step).drafted == s.ledger.drafted && NewGroup(s, step).stream == s.group.stream
  {
    if step.Insert? {
      InsertLedger(s.ledger, step.w, s.workers[step.w].pc.job, s.workers[step.w].pc.row, step.fault);
    } else {
      QuietLedger(c, s, step);
    }
  }

  /** The least pending entry from the cursor on goes idle and is claimed. */
  lemma ClaimLeast(c: Config, s: State, start: nat, p: nat, world: nat -> World, floor: int)
    returns (f: State)
    requires Delivery.Inv(s) && Claiming(s, start) && p in s.group.pending && start <= p
    requires forall q :: q in s.group.pending && start <= q ==> p <= q
    ensures Reaches(c, s, f, world, floor)
    ensures f.group.pending == s.group.pending && f.group.delivered == s.group.delivered
    ensures f.workers == s.workers[0 := Worker(Reclaimer(if AllBelow(s.group.pending, p + 1) then 0 else p + 1), Ready, [p])]
  {
    var s1 := Apply(c, s, GoIdle(p));
    ReachesByStep(c, s, GoIdle(p), world, floor);
    ClaimsOne(c, s1, start, p);
    ReachesByStep(c, s1, Claim(0, p + 1), world, floor);
    f := Apply(c, s1, Claim(0, p + 1));
    ReachesOn(c, s, s1, f, world, floor);
  }

  lemma ClaimsOne(c: Config, s: State, start: nat, p: nat)
    requires Claiming(s, start) && start <= p < s.group.delivered && p in s.group.idle
    requires forall q :: q in s.group.idle && start <= q ==> p <= q
    ensures Enabled(s, Claim(0, p + 1))
    ensures var f := Apply(c, s, Claim(0, p + 1));
            f.group.pending == s.group.pending && f.group.delivered == s.group.delivered &&
            f.workers == s.workers[0 := Worker(Reclaimer(if AllBelow(s.group.pending, p + 1) then 0 else p + 1), Ready, [p])]
  {
    OneIdle(s.group.idle, start, p);
  }

  lemma {:induction false} OneIdle(idle: set<nat>, lo: nat, p: nat)
    requires p in idle && lo <= p && forall q :: q in idle && lo <= q ==> p <= q
    ensures Ascending(idle, lo, p + 1) == [p]
    decreases p - lo
  {
    if lo < p {
      OneIdle(idle, lo + 1, p);
      AscendingSkip(idle, lo, p + 1);
    } else {
      AscendingLast(idle, p);
    }
  }

  lemma AscendingSkip(ps: set<nat>, lo: nat, hi: nat)
    requires lo < hi && lo !in ps
    ensures Ascending(ps, lo, hi) == Ascending(ps, lo + 1, hi)
  {}

  lemma AscendingLast(ps: set<nat>, p: nat)
    requires p in ps
    ensures Ascending(ps, p, p + 1) == [p]
  {
    assert Ascending(ps, p + 1, p + 1) == [];
  }

  /** The claimed entry is handled with nothing failing. */
  lemma HandleClaimed(c: Config, s: State, p: nat, world: nat -> World, floor: int) returns (f: State)
    requires TakesNext(s, 0, p) && AllSmooth(world)
    ensures Reaches(c, s, f, world, floor) && Took(s, f, 0)
    ensures f.group.pending == s.group.pending - Loops.Itself(s.group.stream[p], p)
  {
    var steps := SoloIsLoopBody(c, s, 0, p, world(p), false);
    f := Final(c, s, steps);
    Loops.SmoothOne(c, s.group.stream[p], p, world(p), Loops.Progress(s.ledger.orders, [], s.group.pending, s.group.acked));
    HandlingLeads(c, s, steps, f, p, world, floor);
  }

  lemma HandlingLeads(c: Config, s: State, steps: seq<Step>, f: State, p: nat, world: nat -> World, floor: int)
    requires Runs(c, s, steps) && f == Final(c, s, steps) && TakesNext(s, 0, p) && Loops.Smooth(world(p))
    requires OneHandling(steps, 0, world(p), false) && DraftedOnly(c, s, f, p, world(p))
    requires f.group.stream == s.group.stream
    ensures Reaches(c, s, f, world, floor)
  {
    HandlingIsUnfailing(steps, world(p));
    NoLosses(c, s, steps);
    if Supply(c, s, world) {
      assert FreshFor(s.ledger.drafted, IdFor(c, s.group.stream, world, p), Message(p));
      HandlingIsDisciplined(c, s, steps, 0, p, world(p), floor);
    }
    assert Leads(c, s, steps, f, world, floor);
  }

  lemma HandlingIsUnfailing(steps: seq<Step>, world: World)
    requires OneHandling(steps, 0, world, false) && Loops.Smooth(world)
    ensures AllUnfailing(steps) && forall i :: 0 <= i < |steps| ==> !steps[i].Crash?
  {
    forall i | 0 <= i < |steps| ensures Unfailing(steps[i]) && !steps[i].Crash? {
      if i >= 2 {
        assert steps[i] == steps[2..][i - 2];
      }
    }
  }

  /** What is left pending from the cursor on, when everything before it has been settled. */
  ghost predicate SettledBelow(g: Group, start: nat) {
    forall q :: q in g.pending && q < start ==> q < |g.stream| && !HasUid(g.stream[q])
  }

  lemma OneEntry(c: Config, s: State, start: nat, p: nat, world: nat -> World, floor: int) returns (f: State)
    requires Delivery.Inv(s) && Claiming(s, start) && p in s.group.pending && start <= p && AllSmooth(world)
    requires forall q :: q in s.group.pending && start <= q ==> p <= q
    ensures Reaches(c, s, f, world, floor) && f.group.delivered == s.group.delivered
    ensures f.group.pending == s.group.pending - Loops.Itself(s.group.stream[p], p)
    ensures Claiming(f, if AllBelow(s.group.pending, p + 1) then 0 else p + 1)
  {
    var t := ClaimLeast(c, s, start, p, world, floor);
    f := HandleClaimed(c, t, p, world, floor);
    ReachesOn(c, s, t, f, world, floor);
  }

  lemma {:induction false} Least(ps: set<nat>, lo: nat, hi: nat) returns (p: nat)
    requires exists q :: q in ps && lo <= q < hi
    ensures p in ps && lo <= p < hi && forall q :: q in ps && lo <= q ==> p <= q
    decreases hi - lo
  {
    p := lo;
    if lo !in ps {
      p := Least(ps, lo + 1, hi);
    }
  }

  /** One entry of the sweep. */
  lemma SweepOne(c: Config, s0: State, s: State, start: nat, p: nat, world: nat -> World, floor: int) returns (f: State)
    requires Delivery.Inv(s0) && Reaches(c, s0, s, world, floor)
    requires Claiming(s, start) && AllSmooth(world) && SettledBelow(s.group, start)
    requires p in s.group.pending && start <= p && forall q :: q in s.group.pending && start <= q ==> p <= q
    ensures Reaches(c, s0, f, world, floor) && f.group.delivered == s.group.delivered && SettledBelow(f.group, p + 1)
    ensures if AllBelow(s.group.pending, p + 1) then SettledBelow(f.group, f.group.delivered) else Claiming(f, p + 1)
  {
    ReachesKeeps(c, s0, s, world, floor);
    f := OneEntry(c, s, start, p, world, floor);
    ReachesOn(c, s0, s, f, world, floor);
    PendingInStream(s, p);
    StillSettled(s.group, f.group, start, p);
    if AllBelow(s.group.pending, p + 1) {
      AllSettled(s.group, f.group, p);
    }
  }

  lemma PendingInStream(s: State, p: nat)
    requires Delivery.Inv(s) && p in s.group.pending
    ensures p < s.group.delivered <= |s.group.stream|
  {}

  /** What the sweep has still to reach. */
  function Left(g: Group, start: nat): set<nat> {
    set q | q in g.pending && start <= q
  }

  lemma LeastLeft(c: Config, s0: State, s: State, start: nat, world: nat -> World, floor: int) returns (p: nat)
    requires Delivery.Inv(s0) && Reaches(c, s0, s, world, floor) && Left(s.group, start) != {}
    ensures p in s.group.pending && start <= p < s.group.delivered
    ensures forall q :: q in s.group.pending && start <= q ==> p <= q
  {
    ReachesKeeps(c, s0, s, world, floor);
    var q :| q in Left(s.group, start);
    p := Least(s.group.pending, start, s.group.delivered);
  }

  lemma NothingLeft(g: Group, start: nat)
    requires SettledBelow(g, start) && Left(g, start) == {}
    ensures SettledBelow(g, g.delivered)
  {
    forall q | q in g.pending ensures q < start {
      assert q !in Left(g, start);
    }
  }

  /** One round of the sweep; the cursor comes back as 0 when there is nothing more to reach. */
  lemma SweepOn(c: Config, s0: State, s: State, start: nat, world: nat -> World, floor: int) returns (f: State, next: nat)
    requires Delivery.Inv(s0) && Reaches(c, s0, s, world, floor)
    requires Claiming(s, start) && AllSmooth(world) && SettledBelow(s.group, start)
    ensures Reaches(c, s0, f, world, floor) && f.group.delivered == s.group.delivered
    ensures next == 0 ==> SettledBelow(f.group, f.group.delivered)
    ensures next != 0 ==> start < next <= s.group.delivered && Claiming(f, next) && SettledBelow(f.group, next)
  {
    f, next := s, 0;
    if Left(s.group, start) == {} {
      NothingLeft(s.group, start);
    } else {
      var p := LeastLeft(c, s0, s, start, world, floor);
      f := SweepOne(c, s0, s, start, p, world, floor);
      next := if AllBelow(s.group.pending, p + 1) then 0 else p + 1;
    }
  }

  /** From the cursor to the end. */
  lemma {:induction false} SweepUp(c: Config, s0: State, s: State, start: nat, world: nat -> World, floor: int)
    returns (f: State)
    requires Delivery.Inv(s0) && Reaches(c, s0, s, world, floor)
    requires Claiming(s, start) && AllSmooth(world) && SettledBelow(s.group, start)
    ensures Reaches(c, s0, f, world, floor) && f.group.delivered == s.group.delivered
    ensures SettledBelow(f.group, f.group.delivered)
    decreases s.group.delivered - start
  {
    var next;
    f, next := SweepOn(c, s0, s, start, world, floor);
    if next != 0 {
      f := SweepUp(c, s0, f, next, world, floor);
    }
  }

  lemma ReachesKeeps(c: Config, s: State, f: State, world: nat -> World, floor: int)
    requires Delivery.Inv(s) && Reaches(c, s, f, world, floor)
    ensures Delivery.Inv(f)
  {
    var steps :| Leads(c, s, steps, f, world, floor);
    Delivery.NoMessageLost(c, s, steps);
  }

  lemma StillSettled(g: Group, g': Group, start: nat, p: nat)
    requires SettledBelow(g, start) && p < |g.stream| && g'.stream == g.stream
    requires forall q :: q in g.pending && start <= q ==> p <= q
    requires g'.pending == g.pending - Loops.Itself(g.stream[p], p)
    ensures SettledBelow(g', p + 1)
  {}

  lemma AllSettled(g: Group, g': Group, p: nat)
    requires SettledBelow(g', p + 1) && AllBelow(g.pending, p + 1) && g'.pending <= g.pending
    ensures SettledBelow(g', g'.delivered)
  {}

  // ---------------------------------------------------------------------------------------------
  // From anywhere
  // ---------------------------------------------------------------------------------------------

  /** The first worker stops and starts again in another role. */
  lemma TakeRole(c: Config, s: State, role: Role, world: nat -> World, floor: int) returns (f: State)
    requires s.workers != [] && (role.Reclaimer? ==> role.start == 0)
    ensures Reaches(c, s, f, world, floor)
    ensures f.group == s.group && f.workers != [] && f.workers[0] == Worker(role, Ready, [])
  {
    var t := StopFirst(c, s, world, floor);
    ReachesByStep(c, t, Restart(0, role), world, floor);
    f := Apply(c, t, Restart(0, role));
    ReachesOn(c, s, t, f, world, floor);
  }

  lemma StopFirst(c: Config, s: State, world: nat -> World, floor: int) returns (f: State)
    requires s.workers != []
    ensures Reaches(c, s, f, world, floor)
    ensures f.group == s.group && f.workers != [] && f.workers[0].pc.Down?
  {
    if s.workers[0].pc.Down? {
      f := s;
      ReachesItself(c, s, world, floor);
    } else {
      var t := PublishFirst(c, s, world, floor);
      ReachesByStep(c, t, Crash(0), world, floor);
      f := Apply(c, t, Crash(0));
      ReachesOn(c, s, t, f, world, floor);
    }
  }

  /** A worker about to publish does so first. */
  lemma PublishFirst(c: Config, s: State, world: nat -> World, floor: int) returns (f: State)
    requires s.workers != [] && !s.workers[0].pc.Down?
    ensures Reaches(c, s, f, world, floor)
    ensures f.group == s.group && f.workers != [] && !f.workers[0].pc.Down? && !f.workers[0].pc.Publishing?
  {
    if s.workers[0].pc.Publishing? {
      ReachesByStep(c, s, Step.Publish(0, NoFault), world, floor);
      f := Apply(c, s, Step.Publish(0, NoFault));
    } else {
      f := s;
      ReachesItself(c, s, world, floor);
    }
  }

  /** One more entry is read; its reader may stop at once, for the entry stays pending. */
  lemma ReadOne(c: Config, s: State, world: nat -> World, floor: int) returns (f: State)
    requires s.workers != [] && s.group.delivered < |s.group.stream|
    ensures Reaches(c, s, f, world, floor) && f.workers != [] && f.group.delivered == s.group.delivered + 1
  {
    var t := TakeRole(c, s, Consumer, world, floor);
    ReachesByStep(c, t, Read(0, 1), world, floor);
    f := Apply(c, t, Read(0, 1));
    ReachesOn(c, s, t, f, world, floor);
  }

  lemma {:induction false} ReadAll(c: Config, s: State, world: nat -> World, floor: int) returns (f: State)
    requires s.workers != [] && s.group.delivered <= |s.group.stream|
    ensures Reaches(c, s, f, world, floor) && f.workers != [] && f.group.delivered == |f.group.stream|
    decreases |s.group.stream| - s.group.delivered
  {
    if s.group.delivered < |s.group.stream| {
      var t := ReadOne(c, s, world, floor);
      f := ReadAll(c, t, world, floor);
      ReachesOn(c, s, t, f, world, floor);
    } else {
      f := s;
      ReachesItself(c, s, world, floor);
    }
  }

  ghost predicate AllAcked(g: Group) {
    forall p: nat :: p < |g.stream| && g.stream[p].uid != "" && g.stream[p].uid != "<nil>" ==> p in g.acked
  }

  lemma SettledIsAcked(s: State)
    requires Delivery.Inv(s) && s.group.delivered == |s.group.stream| && SettledBelow(s.group, s.group.delivered)
    ensures AllAcked(s.group)
  {}

  /** However its workers were interrupted and whatever has failed so far, one worker for which nothing
      fails any more can get every entry with a uid acknowledged, those yet to be delivered included, and
      without losing an event. If the clock supplies an order id of its own to each message, its steps are
      disciplined. */
  lemma Recoverable(c: Config, s: State, world: nat -> World, floor: int) returns (steps: seq<Step>, f: State)
    requires Delivery.Inv(s) && s.workers != [] && AllSmooth(world)
    ensures Leads(c, s, steps, f, world, floor) && AllAcked(f.group)
  {
    var t := ReadAll(c, s, world, floor);
    var u := TakeRole(c, t, Reclaimer(0), world, floor);
    ReachesOn(c, s, t, u, world, floor);
    f := SweepUp(c, s, u, 0, world, floor);
    ReachesKeeps(c, s, f, world, floor);
    SettledIsAcked(f);
    steps :| Leads(c, s, steps, f, world, floor);
  }
}
