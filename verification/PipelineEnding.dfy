/**
 The edges of shutdown: nothing of it happens before a stop signal, and what it closes it closes completely.
 */
module PipelineEnding {
  import opened Models
  import opened Pipeline
  import opened PipelineControl
  import opened PipelineFlow
  import opened PipelineWake
  import opened PipelineOrder
  import opened PipelineAccount

  /** Before a stop signal no batch is given up, nobody drains, and nobody is told that the server is shutting down. */
  ghost predicate Early(s: State) {
    !StopSignal(s.flags) ==>
      && AllOff(s) && !s.pc.Failing? && !s.pc.Draining? && !Stopped(s.pc)
      && forall r :: (r, ShuttingDown) !in s.box.retired
  }

  /** A Stop that has begun has set its flag, and one that has gone on has closed the stop channel. */
  ghost predicate StopsFlagged(s: State) {
    forall i :: 0 <= i < |s.stops| && s.stops[i] != Idle ==>
      s.flags.stopping && (s.stops[i] != Flagged ==> s.flags.stopClosed)
  }

  /** Close has gone through the sub-queues it says it has. */
  ghost predicate ShutUpTo(g: Gate, t: nat) {
    forall u: nat :: u < t && u < CELLS ==> CloseOrder(u) in g.shut
  }

  ghost predicate ShutOk(drains: seq<Drainer>, g: Gate) {
    && (forall i :: 0 <= i < |drains| && drains[i].pc.Closing? ==> ShutUpTo(g, drains[i].pc.t))
    && (g.once == Done ==> ShutUpTo(g, CELLS))
  }

  /** The batch channels are closed in index order, all of them in the end. */
  ghost predicate ChansOk(pc: Pc, closed: set<nat>) {
    && (pc.ClosingChans? ==> forall cl: nat :: cl < pc.i && cl < PRIORITIES ==> cl in closed)
    && (pc.Gone? ==> forall cl: nat :: cl < PRIORITIES ==> cl in closed)
  }

  ghost predicate Ending(s: State) {
    Early(s) && StopsFlagged(s) && ShutOk(s.drains, s.gate) && ChansOk(s.pc, s.chans.closed)
  }

  lemma EndingInit(c: Config, s: State)
    requires Init(s)
    ensures Ending(s)
  {
  }

  // ----- Early -----

  lemma EarlyBatcher(c: Config, s: State, ch: Choice, s': State)
    requires Control(s) && Early(s) && BatcherStep(c, s, ch, s')
    ensures Early(s')
  {
    hide FormNext, AccumulateNext;
    if RunStep(c, s, ch, s') {
      EarlyRun(c, s, ch, s');
    } else {
      FormMoves(c, s, ch, s');
      FormsOn(c, s.m, s.gate.shut, StopSignal(s.flags), ch, s.pc);
      FormsBatch(c, s.m, s.gate.shut, StopSignal(s.flags), ch, s.pc);
    }
  }

  lemma FormsBatch(c: Config, m: Matrix, shut: set<nat>, stop: bool, ch: Choice, pc: Pc)
    ensures var f := FormNext(c, m, shut, stop, ch, pc); f.Formed? ==> !f.pc.Failing?
    ensures var f := AccumulateNext(c, m, shut, stop, ch, pc); f.Formed? ==> !f.pc.Failing?
  {
  }

  lemma EarlyRun(c: Config, s: State, ch: Choice, s': State)
    requires Control(s) && Early(s) && RunStep(c, s, ch, s')
    ensures Early(s')
  {
    RunFrame(c, s, ch, s');
    if !StopSignal(s.flags) {
      hide CloseStep;
      match s.pc
      case NotStarted =>
      case Top =>
      case Dispatch(k, reqs) => DispatchFrame(c, s, k, reqs, ch, s'); DispatchLogs(c, s, k, reqs, ch, s');
      case _ => CloseFrame(s, s');
    }
  }

  lemma EarlyWorker(s: State, w: nat, ch: WorkerChoice, s': State)
    requires Errands(s.workers) && Early(s) && WorkerStep(s, w, ch, s')
    ensures Early(s')
  {
    WorkerFrame(s, w, ch, s');
    WorkerSays(s, w, ch, s');
  }

  lemma EarlyDrainer(s: State, i: nat, s': State)
    requires Early(s) && DrainerStep(s, i, s')
    ensures Early(s')
  {
    DrainMoves(s, i, s');
    DrainerOn(s, i, s');
  }

  lemma EarlyStopper(s: State, i: nat, s': State)
    requires Control(s) && Early(s) && StopperStep(s, i, s')
    ensures Early(s')
  {
    StopperFrame(s, i, s');
    assert StopperOk(s, i);
  }

  lemma EarlyStep(c: Config, s: State, a: Action, s': State)
    requires Control(s) && Errands(s.workers) && Early(s) && Step(c, s, a, s')
    ensures Early(s')
  {
    hide BatcherStep, SubmitterStep, DrainerStep, WorkerStep, StopperStep;
    match a
    case Submitter(r) => SubmitterFrame(c, s, r, s');
    case Batcher(ch) => EarlyBatcher(c, s, ch, s');
    case DrainerTurn(i) => EarlyDrainer(s, i, s');
    case StopperTurn(i) => EarlyStopper(s, i, s');
    case WorkerTurn(w, ch) => EarlyWorker(s, w, ch, s');
    case _ =>
  }

  // ----- Flagged -----

  lemma FlaggedStep(c: Config, s: State, a: Action, s': State)
    requires StopsFlagged(s) && Step(c, s, a, s')
    ensures StopsFlagged(s')
  {
    hide BatcherStep, SubmitterStep, DrainerStep, WorkerStep, StopperStep;
    match a
    case Submitter(r) => SubmitterFrame(c, s, r, s');
    case Batcher(ch) => FlaggedBatcher(c, s, ch, s');
    case DrainerTurn(i) => DrainMoves(s, i, s');
    case StopperTurn(i) => FlaggedStopper(s, i, s');
    case WorkerTurn(w, ch) => WorkerFrame(s, w, ch, s');
    case _ =>
  }

  lemma FlaggedBatcher(c: Config, s: State, ch: Choice, s': State)
    requires StopsFlagged(s) && BatcherStep(c, s, ch, s')
    ensures StopsFlagged(s')
  {
    hide FormNext, AccumulateNext;
    if RunStep(c, s, ch, s') { RunFrame(c, s, ch, s'); } else { FormMoves(c, s, ch, s'); }
  }

  lemma FlaggedStopper(s: State, i: nat, s': State)
    requires StopsFlagged(s) && StopperStep(s, i, s')
    ensures StopsFlagged(s')
  {
  }

  // ----- Closed completely -----

  lemma ShutMore(g: Gate, g': Gate, t: nat)
    requires ShutUpTo(g, t) && g.shut <= g'.shut
    ensures ShutUpTo(g', t)
    ensures t < CELLS && CloseOrder(t) in g'.shut ==> ShutUpTo(g', t + 1)
  {
  }

  lemma GateMoves(s: State, i: nat, s': State)
    requires DrainerStep(s, i, s')
    ensures i < |s.drains| == |s'.drains| && s.gate.shut <= s'.gate.shut
    ensures s'.drains == s.drains[i := s'.drains[i]]
    ensures s'.drains[i].pc.Closing? && s'.drains[i].pc.t > 0 ==>
      var t := s'.drains[i].pc.t - 1;
      t < CELLS && s.drains[i].pc == Closing(t) && CloseOrder(t) in s'.gate.shut
    ensures s'.gate.once == Done ==>
      s.gate.once == Done || (s.drains[i].pc.Closing? && s.drains[i].pc.t >= CELLS)
  {
  }

  lemma ShutDrainer(s: State, i: nat, s': State)
    requires ShutOk(s.drains, s.gate) && DrainerStep(s, i, s')
    ensures ShutOk(s'.drains, s'.gate)
  {
    GateMoves(s, i, s');
    hide DrainerStep;
    forall m | 0 <= m < |s'.drains| && s'.drains[m].pc.Closing?
      ensures ShutUpTo(s'.gate, s'.drains[m].pc.t)
    {
      if m != i { ShutMore(s.gate, s'.gate, s.drains[m].pc.t); }
      else if s'.drains[i].pc.t > 0 { ShutMore(s.gate, s'.gate, s.drains[i].pc.t); }
    }
    if s'.gate.once == Done && s.gate.once == Done { ShutMore(s.gate, s'.gate, CELLS); }
  }

  lemma ShutBegin(s: State, i: nat, s': State)
    requires ShutOk(s.drains, s.gate) && i < |s.drains| && BeginSweep(s, i, s'.drains, s'.logs) && s'.gate == s.gate
    ensures ShutOk(s'.drains, s'.gate)
  {
  }

  lemma ShutStep(c: Config, s: State, a: Action, s': State)
    requires ShutOk(s.drains, s.gate) && Control(s) && Step(c, s, a, s')
    ensures ShutOk(s'.drains, s'.gate)
  {
    hide BatcherStep, SubmitterStep, DrainerStep, WorkerStep, StopperStep, ShutUpTo;
    match a
    case Submitter(r) => SubmitterFrame(c, s, r, s');
    case Batcher(ch) => ShutBatcher(c, s, ch, s');
    case DrainerTurn(i) => ShutDrainer(s, i, s');
    case StopperTurn(i) => ShutStopper(s, i, s');
    case WorkerTurn(w, ch) => WorkerFrame(s, w, ch, s');
    case _ =>
  }

  lemma ShutBatcher(c: Config, s: State, ch: Choice, s': State)
    requires ShutOk(s.drains, s.gate) && BatcherStep(c, s, ch, s')
    ensures ShutOk(s'.drains, s'.gate)
  {
    hide FormNext, AccumulateNext, ShutUpTo;
    if RunStep(c, s, ch, s') {
      RunFrame(c, s, ch, s');
      if s'.drains != s.drains { ShutBegin(s, 0, s'); }
    } else {
      FormMoves(c, s, ch, s');
    }
  }

  lemma ShutStopper(s: State, i: nat, s': State)
    requires ShutOk(s.drains, s.gate) && Control(s) && StopperStep(s, i, s')
    ensures ShutOk(s'.drains, s'.gate)
  {
    hide ShutUpTo;
    StopperFrame(s, i, s');
    if s'.drains != s.drains { ShutBegin(s, i + 1, s'); }
  }

  lemma ChansStep(c: Config, s: State, a: Action, s': State)
    requires Lock(s) && ChansOk(s.pc, s.chans.closed) && Step(c, s, a, s')
    ensures ChansOk(s'.pc, s'.chans.closed)
  {
    hide BatcherStep, SubmitterStep, DrainerStep, WorkerStep, StopperStep;
    match a
    case Submitter(r) => SubmitterFrame(c, s, r, s');
    case Batcher(ch) => ChansBatcher(c, s, ch, s');
    case DrainerTurn(i) => DrainMoves(s, i, s');
    case StopperTurn(i) => StopperFrame(s, i, s');
    case WorkerTurn(w, ch) => WorkerFrame(s, w, ch, s');
    case _ =>
  }

  lemma ChansBatcher(c: Config, s: State, ch: Choice, s': State)
    requires ChansOk(s.pc, s.chans.closed) && BatcherStep(c, s, ch, s')
    ensures ChansOk(s'.pc, s'.chans.closed)
  {
    hide FormNext, AccumulateNext;
    if !RunStep(c, s, ch, s') { FormsOn(c, s.m, s.gate.shut, StopSignal(s.flags), ch, s.pc); }
  }

  lemma EndingStep(c: Config, s: State, a: Action, s': State)
    requires Control(s) && Lock(s) && Errands(s.workers) && Ending(s) && Step(c, s, a, s')
    ensures Ending(s')
  {
    hide Step, Control, Lock, Early, StopsFlagged, ShutOk, ChansOk;
    FlaggedStep(c, s, a, s');
    EarlyStep(c, s, a, s');
    ShutStep(c, s, a, s');
    ChansStep(c, s, a, s');
  }

  /** The order of closing goes through every sub-queue. */
  lemma CloseOrderAll(g: Gate, k: Rank)
    requires ShutUpTo(g, CELLS)
    ensures k in g.shut
  {
    var t := (PRIORITIES - 1 - k / BLOCK) * BLOCK + k % BLOCK;
    assert t / BLOCK == PRIORITIES - 1 - k / BLOCK && t % BLOCK == k % BLOCK;
    assert t < CELLS && CloseOrder(t) == k;
  }
}
