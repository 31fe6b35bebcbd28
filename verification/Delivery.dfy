/** No message is lost: what the consumer group holds at every state of every run. */
module Delivery {
  import opened Machine

  /** An entry a worker may hold a handler call for. */
  predicate Handled(g: Group, pos: nat) {
    pos < g.delivered <= |g.stream| && HasUid(g.stream[pos])
  }

  predicate JobOk(g: Group, job: Job) {
    job.Message? ==> Handled(g, job.pos)
  }

  predicate PcOk(g: Group, pc: Pc) {
    match pc
    case Ready => true
    case Down => true
    case Drafting(job) => JobOk(g, job)
    case Inserting(job, _) => JobOk(g, job)
    case Publishing(job, _) => JobOk(g, job)
    case Acking(pos) => Handled(g, pos)
  }

  ghost predicate WorkerOk(g: Group, wk: Worker) {
    (forall i :: 0 <= i < |wk.batch| ==> wk.batch[i] < g.delivered) && PcOk(g, wk.pc)
  }

  ghost predicate WorkersOk(g: Group, workers: seq<Worker>) {
    forall w :: 0 <= w < |workers| ==> WorkerOk(g, workers[w])
  }

  /** Delivered entries are exactly the pending and the acknowledged ones, none is both, and only
      entries with a uid were ever acknowledged. */
  ghost predicate GroupOk(g: Group) {
    && g.delivered <= |g.stream|
    && (forall p: nat :: p < g.delivered <==> p in g.pending || p in g.acked)
    && g.pending !! g.acked
    && g.idle <= g.pending
    && (forall p :: p in g.acked ==> Handled(g, p))
    && (forall p, q :: 0 <= p < q < |g.stream| ==> g.stream[p].id != g.stream[q].id)
  }

  ghost predicate Inv(s: State) {
    GroupOk(s.group) && WorkersOk(s.group, s.workers)
  }

  predicate Grows(g: Group, g': Group) {
    g.stream <= g'.stream && g.delivered <= g'.delivered <= |g'.stream|
  }

  lemma GroupKeeps(s: State, step: Step)
    requires Inv(s) && Enabled(s, step)
    ensures GroupOk(NewGroup(s, step)) && Grows(s.group, NewGroup(s, step))
  {
    if step.Ack? {
      assert WorkerOk(s.group, s.workers[step.w]);
    } else if step.Read? {
      var batch := NextBatch(s.group, step.n);
      forall p: nat | s.group.delivered <= p < s.group.delivered + step.n ensures p in batch {
        assert batch[p - s.group.delivered] == p;
      }
    }
  }

  lemma GrowthKeeps(g: Group, g': Group, wk: Worker)
    requires WorkerOk(g, wk) && Grows(g, g')
    ensures WorkerOk(g', wk)
  {}

  lemma WorkerKeeps(c: Config, s: State, step: Step)
    requires Inv(s) && Enabled(s, step) && Moves(step)
    ensures WorkerOk(NewGroup(s, step), NewWorker(c, s, step))
  {
    var wk := s.workers[step.w];
    assert WorkerOk(s.group, wk);
  }

  lemma StepKeeps(c: Config, s: State, step: Step)
    requires Inv(s) && Enabled(s, step)
    ensures Inv(Apply(c, s, step))
  {
    GroupKeeps(s, step);
    forall w | 0 <= w < |s.workers| ensures WorkerOk(NewGroup(s, step), s.workers[w]) {
      GrowthKeeps(s.group, NewGroup(s, step), s.workers[w]);
    }
    if Moves(step) {
      WorkerKeeps(c, s, step);
    }
  }

  lemma {:induction false} NoMessageLost(c: Config, s: State, steps: seq<Step>)
    requires Inv(s) && Runs(c, s, steps)
    ensures Inv(Final(c, s, steps))
    decreases |steps|
  {
    if steps != [] {
      StepKeeps(c, s, steps[0]);
      NoMessageLost(c, Apply(c, s, steps[0]), steps[1..]);
    }
  }
}
