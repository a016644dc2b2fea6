/**
 What every step of the pipeline keeps: the shape of batches and queues, the order of start, stop and
 drain, and the lock discipline around closing. Consequences: no send or close ever panics, and the
 batcher never drains a closed matrix.
 */
module PipelineControl {
  import opened Models
  import opened Pipeline

  // ----- Shape: capacities and homogeneity -----

  ghost predicate OfKey(c: Config, k: Rank, reqs: seq<Request>) {
    forall r :: r in reqs ==> c.route(r) == k
  }

  /** Between 1 and maxBatch requests of one sub-queue, on the channel of its priority. */
  ghost predicate GoodBatch(c: Config, cl: nat, b: Batch) {
    1 <= |b.requests| <= c.maxBatch && ClassOf(b.key) == cl && OfKey(c, b.key, b.requests)
  }

  ghost predicate PcOk(c: Config, pc: Pc) {
    match pc
    case Scan(next, _) => next <= CELLS
    case Recv(k, got, _) => |got| <= c.maxBatch && OfKey(c, k, got)
    case Settle(k, got, _) => 1 <= |got| <= c.maxBatch && OfKey(c, k, got)
    case FlushCheck(k, reqs) => 1 <= |reqs| <= c.maxBatch && OfKey(c, k, reqs)
    case AccTop(k, reqs) => 1 <= |reqs| < c.maxBatch && OfKey(c, k, reqs)
    case AccRecv(k, reqs, got, _) => 1 <= |reqs| < c.maxBatch && |reqs| + |got| <= c.maxBatch && OfKey(c, k, reqs + got)
    case AccSettle(k, reqs, got, _) =>
      1 <= |reqs| && 1 <= |got| && |reqs| + |got| <= c.maxBatch && OfKey(c, k, reqs + got)
    case AccFlush(k, reqs, _) => 1 <= |reqs| < c.maxBatch && OfKey(c, k, reqs)
    case AccHigher(k, reqs, j, _) => 1 <= |reqs| < c.maxBatch && OfKey(c, k, reqs) && j <= HigherCount(k)
    case AccPark(k, reqs, _) => 1 <= |reqs| < c.maxBatch && OfKey(c, k, reqs)
    case Rearm(k, reqs) => |reqs| <= c.maxBatch && OfKey(c, k, reqs)
    case Resignal(k, reqs) => |reqs| <= c.maxBatch && OfKey(c, k, reqs)
    case Dispatch(k, reqs) => 1 <= |reqs| <= c.maxBatch && OfKey(c, k, reqs)
    case ClosingChans(i) => i <= PRIORITIES
    case _ => true
  }

  ghost predicate QueuesOk(c: Config, q: Queues) {
    forall k: Rank :: |q[k]| <= c.perQueue && OfKey(c, k, q[k])
  }

  ghost predicate ChannelOk(c: Config, cl: nat, sent: seq<Batch>, taken: nat) {
    taken <= |sent| <= taken + c.chanCap && forall i :: 0 <= i < |sent| ==> GoodBatch(c, cl, sent[i])
  }

  ghost predicate ChannelsOk(c: Config, sent: Channels, taken: Counts) {
    forall cl :: 0 <= cl < PRIORITIES ==> ChannelOk(c, cl, sent[cl], taken[cl])
  }

  ghost predicate Shape(c: Config, s: State) {
    QueuesOk(c, s.m.queues) && ChannelsOk(c, s.chans.sent, s.chans.taken) && PcOk(c, s.pc)
    && |s.drains| == |s.stops| + 1
  }

  lemma QueuePop(c: Config, q: Queues, k: Rank)
    requires QueuesOk(c, q) && q[k] != []
    ensures QueuesOk(c, q[k := q[k][1..]]) && c.route(q[k][0]) == k
  {
    assert q[k][0] in q[k];
    assert forall r :: r in q[k][1..] ==> r in q[k];
  }

  lemma ShapeInit(c: Config, s: State)
    requires c.Valid() && Init(s)
    ensures Shape(c, s)
  {
  }

  lemma ShapeForm(c: Config, m: Matrix, shut: set<nat>, stop: bool, ch: Choice, pc: Pc)
    requires c.Valid() && QueuesOk(c, m.queues) && PcOk(c, pc) && Forming(pc)
    ensures var f := FormNext(c, m, shut, stop, ch, pc);
            f.Formed? ==> QueuesOk(c, f.m.queues) && PcOk(c, f.pc)
  {
    if pc.Recv? && m.queues[pc.k] != [] { QueuePop(c, m.queues, pc.k); }
  }

  lemma ShapeAccumulate(c: Config, m: Matrix, shut: set<nat>, stop: bool, ch: Choice, pc: Pc)
    requires c.Valid() && QueuesOk(c, m.queues) && PcOk(c, pc) && Accumulating(pc)
    ensures var f := AccumulateNext(c, m, shut, stop, ch, pc);
            f.Formed? ==> QueuesOk(c, f.m.queues) && PcOk(c, f.pc)
  {
    if pc.AccRecv? && m.queues[pc.k] != [] { QueuePop(c, m.queues, pc.k); }
  }

  lemma ShapeDispatch(c: Config, s: State, k: Rank, reqs: seq<Request>, ch: Choice, s': State)
    requires Shape(c, s) && s.pc == Dispatch(k, reqs) && DispatchStep(c, s, k, reqs, ch, s')
    ensures Shape(c, s')
  {
    if ch == Go && ClassOf(k) !in s.chans.closed {
      var cl := ClassOf(k);
      assert ChannelOk(c, cl, s.chans.sent[cl], s.chans.taken[cl]);
      assert GoodBatch(c, cl, Batch(k, reqs));
      assert ChannelOk(c, cl, s'.chans.sent[cl], s'.chans.taken[cl]);
    }
  }

  lemma ShapeRun(c: Config, s: State, ch: Choice, s': State)
    requires c.Valid() && Shape(c, s) && RunStep(c, s, ch, s')
    ensures Shape(c, s')
  {
    if s.pc.Dispatch? { ShapeDispatch(c, s, s.pc.k, s.pc.reqs, ch, s'); }
  }

  lemma ShapeWorker(c: Config, s: State, w: nat, ch: WorkerChoice, s': State)
    requires c.Valid() && Shape(c, s) && WorkerStep(s, w, ch, s')
    ensures Shape(c, s')
  {
  }

  lemma ShapeDrainer(c: Config, s: State, i: nat, s': State)
    requires c.Valid() && Shape(c, s) && DrainerStep(s, i, s')
    ensures Shape(c, s')
  {
    var p := s.drains[i].pc;
    if p.Sweep? && p.k < CELLS && s.m.queues[p.k] != [] { QueuePop(c, s.m.queues, p.k); }
  }

  lemma ShapeSubmitter(c: Config, s: State, r: Request, s': State)
    requires c.Valid() && Shape(c, s) && SubmitterStep(c, s, r, s')
    ensures Shape(c, s')
  {
  }

  lemma ShapeBatcher(c: Config, s: State, ch: Choice, s': State)
    requires c.Valid() && Shape(c, s) && BatcherStep(c, s, ch, s')
    ensures Shape(c, s')
  {
    if RunStep(c, s, ch, s') { ShapeRun(c, s, ch, s'); }
    else if Forming(s.pc) { ShapeForm(c, s.m, s.gate.shut, StopSignal(s.flags), ch, s.pc); }
    else { ShapeAccumulate(c, s.m, s.gate.shut, StopSignal(s.flags), ch, s.pc); }
  }

  lemma ShapeStep(c: Config, s: State, a: Action, s': State)
    requires c.Valid() && Shape(c, s) && Step(c, s, a, s')
    ensures Shape(c, s')
  {
    hide BatcherStep, SubmitterStep, DrainerStep, WorkerStep;
    match a
    case Batcher(ch) => ShapeBatcher(c, s, ch, s');
    case DrainerTurn(i) => ShapeDrainer(c, s, i, s');
    case Submitter(r) => ShapeSubmitter(c, s, r, s');
    case WorkerTurn(w, ch) => ShapeWorker(c, s, w, ch, s');
    case _ =>
  }

  // ----- Control: start, stop and drain -----

  ghost predicate StopperOk(s: State, i: nat)
    requires i < |s.stops| && i + 1 < |s.drains|
  {
    && (s.stops[i] != Idle && s.stops[i] != Flagged ==> s.flags.stopClosed)
    && (!s.drains[i + 1].pc.Off? ==> s.flags.stopClosed && s.stops[i] in {StopDraining, StopReturned})
  }

  ghost predicate StoppersOk(s: State)
    requires |s.drains| == |s.stops| + 1
  {
    forall i :: 0 <= i < |s.stops| ==> StopperOk(s, i)
  }

  ghost predicate Untouched(g: Gate, l: Logs) {
    g == Gate(false, {}, false, Fresh) && !l.zeroed
  }

  /** drain never overlaps the body of the run loop, and until some goroutine drains the matrix is open. */
  ghost predicate Control(s: State) {
    && |s.drains| == |s.stops| + 1
    && (s.flags.started <==> !s.pc.NotStarted?)
    && (!s.drains[0].pc.Off? ==> s.pc.Draining? || Stopped(s.pc))
    && StoppersOk(s)
    && (Active(s.pc) ==> AllOff(s))
    && (AllOff(s) ==> Untouched(s.gate, s.logs))
  }

  lemma ControlInit(c: Config, s: State)
    requires Init(s)
    ensures Control(s)
  {
  }

  /** Steps that leave the goroutines' control positions alone. */
  lemma ControlFrame(s: State, s': State)
    requires Control(s)
    requires s'.drains == s.drains && s'.stops == s.stops && s'.gate == s.gate && s'.logs.zeroed == s.logs.zeroed
    requires s'.flags.stopClosed == s.flags.stopClosed && (s'.flags.started <==> !s'.pc.NotStarted?)
    requires s.pc.Draining? || Stopped(s.pc) ==> s'.pc.Draining? || Stopped(s'.pc)
    requires Active(s'.pc) ==> AllOff(s)
    ensures Control(s')
  {
    forall i | 0 <= i < |s'.stops|
      ensures StopperOk(s', i)
    {
      assert StopperOk(s, i);
    }
  }

  /** At the head of the run loop with no stop signal, nobody is draining. */
  lemma QuietAtTop(s: State)
    requires Control(s) && s.pc.Top? && !s.flags.stopClosed
    ensures AllOff(s)
  {
    forall i | 0 <= i < |s.drains|
      ensures s.drains[i].pc.Off?
    {
      assert i > 0 ==> StopperOk(s, i - 1);
    }
  }

  lemma ControlForm(c: Config, s: State, ch: Choice, s': State)
    requires Control(s) && (Forming(s.pc) || Accumulating(s.pc))
    requires var f := if Forming(s.pc) then FormNext(c, s.m, s.gate.shut, StopSignal(s.flags), ch, s.pc)
                      else AccumulateNext(c, s.m, s.gate.shut, StopSignal(s.flags), ch, s.pc);
             FormStep(s, f, s')
    ensures Control(s')
  {
    if s.pc.Top? { QuietAtTop(s); }
    ControlFrame(s, s');
  }

  lemma ControlGiveUp(s: State, s': State)
    requires Control(s) && (s.pc.Top? || s.pc.Failing?) && GiveUpStep(s, s')
    ensures Control(s')
  {
    forall i | 0 <= i < |s'.stops|
      ensures StopperOk(s', i)
    {
      assert StopperOk(s, i);
    }
    assert !s'.drains[0].pc.Off?;
  }

  lemma ControlRun(c: Config, s: State, ch: Choice, s': State)
    requires Control(s) && RunStep(c, s, ch, s')
    ensures Control(s')
  {
    RunFrame(c, s, ch, s');
    if (s.pc.Top? || s.pc == Failing([])) && GiveUpStep(s, s') { ControlGiveUp(s, s'); }
    else {
      RunProgress(c, s, ch, s');
      hide RunStep, GiveUpStep;
      ControlFrame(s, s');
    }
  }

  lemma ControlBatcher(c: Config, s: State, ch: Choice, s': State)
    requires Control(s) && BatcherStep(c, s, ch, s')
    ensures Control(s')
  {
    hide RunStep;
    if RunStep(c, s, ch, s') { ControlRun(c, s, ch, s'); } else { ControlForm(c, s, ch, s'); }
  }

  lemma ControlStopper(s: State, i: nat, s': State)
    requires Control(s) && StopperStep(s, i, s')
    ensures Control(s')
  {
    forall j | 0 <= j < |s'.stops|
      ensures StopperOk(s', j)
    {
      assert StopperOk(s, j) && StopperOk(s, i);
    }
    if s.stops[i] == ChanClosed && !s.flags.started { assert !s'.drains[i + 1].pc.Off?; }
    else { assert s'.drains == s.drains; }
  }

  lemma ControlDrainer(s: State, i: nat, s': State)
    requires Control(s) && DrainerStep(s, i, s')
    ensures Control(s')
  {
    assert !s.drains[i].pc.Off? && !s'.drains[i].pc.Off?;
    forall j | 0 <= j < |s'.stops|
      ensures StopperOk(s', j)
    {
      assert StopperOk(s, j);
    }
  }

  lemma ControlStep(c: Config, s: State, a: Action, s': State)
    requires Control(s) && Step(c, s, a, s')
    ensures Control(s')
  {
    hide BatcherStep, SubmitterStep, DrainerStep, WorkerStep, StopperStep;
    match a
    case Batcher(ch) => ControlBatcher(c, s, ch, s');
    case DrainerTurn(i) => ControlDrainer(s, i, s');
    case StopperTurn(i) => ControlStopper(s, i, s');
    case Submitter(r) => SubmitterFrame(c, s, r, s'); ControlFrame(s, s');
    case WorkerTurn(w, ch) => WorkerFrame(s, w, ch, s'); ControlFrame(s, s');
    case _ => ControlFrame(s, s');
  }

  // ----- Lock: the read/write lock around Close -----

  predicate InClose(p: DrainPc) {
    p.LockWait? || p.Flagging? || p.Closing?
  }

  /** Nobody sends while the sub-queues are closed, and closed means someone passed the write lock. */
  ghost predicate SubsOk(subs: map<Request, SubPc>, g: Gate) {
    && (g.writer ==> forall r :: r in subs ==> subs[r] == Entered)
    && (forall r :: r in subs && subs[r] == Checked ==> !g.closed)
  }

  ghost predicate GateOk(g: Gate) {
    && (g.shut != {} ==> g.closed)
    && (g.closed ==> g.once != Fresh)
    && (g.once == Done ==> g.closed)
  }

  ghost predicate DrainerOk(p: DrainPc, g: Gate) {
    && (InClose(p) ==> g.once == Running)
    && (p.Flagging? || p.Closing? ==> g.writer)
    && (p.Closing? ==> g.closed)
    && (p.Finished? ==> g.once == Done)
  }

  ghost predicate ClosersOk(drains: seq<Drainer>, g: Gate) {
    && (forall i :: 0 <= i < |drains| ==> DrainerOk(drains[i].pc, g))
    && (forall i, j :: 0 <= i < j < |drains| && InClose(drains[i].pc) ==> !InClose(drains[j].pc))
  }

  ghost predicate ChansClosedOk(pc: Pc, closed: set<nat>) {
    && (closed != {} ==> pc.ClosingChans? || pc.Gone?)
    && (pc.ClosingChans? ==> forall cl :: cl in closed ==> cl < pc.i)
  }

  /** The run loop returns only behind a finished Close. */
  ghost predicate ReturnOk(pc: Pc, g: Gate) { Stopped(pc) ==> g.once == Done }

  ghost predicate Lock(s: State) {
    SubsOk(s.subs, s.gate) && GateOk(s.gate) && ClosersOk(s.drains, s.gate) && ChansClosedOk(s.pc, s.chans.closed)
    && ReturnOk(s.pc, s.gate) && !s.panicked
  }

  lemma LockInit(c: Config, s: State)
    requires Init(s)
    ensures Lock(s)
  {
  }

  lemma LockSubmitter(c: Config, s: State, r: Request, s': State)
    requires Lock(s) && SubmitterStep(c, s, r, s')
    ensures Lock(s')
  {
    assert s.subs[r] == Checked ==> s.gate.shut == {};
  }

  /** One position changes, to one that suits the new gate. */
  lemma ClosersUpdate(drains: seq<Drainer>, g: Gate, i: nat, d: Drainer, g': Gate)
    requires ClosersOk(drains, g) && i < |drains| && DrainerOk(d.pc, g')
    requires g' != g ==> InClose(drains[i].pc) || g.once == Fresh
    requires g' != g && g.once == Fresh ==> g' == g.(once := Running)
    requires InClose(d.pc) ==> InClose(drains[i].pc) || g.once == Fresh
    requires g.once == Done ==> g'.once == Done
    ensures ClosersOk(drains[i := d], g')
  {
    var drains' := drains[i := d];
    forall j | 0 <= j < |drains'|
      ensures DrainerOk(drains'[j].pc, g')
    {
      assert DrainerOk(drains[j].pc, g) && DrainerOk(drains[i].pc, g);
    }
    assert forall j :: 0 <= j < |drains| && g.once == Fresh ==> !InClose(drains[j].pc);
  }

  lemma LockDrainer(s: State, i: nat, s': State)
    requires Lock(s) && DrainerStep(s, i, s')
    ensures Lock(s')
  {
    assert s'.drains == s.drains[i := s'.drains[i]] && DrainerOk(s.drains[i].pc, s.gate);
    assert s'.panicked == s.panicked && s'.pc == s.pc && s'.chans == s.chans && s'.subs == s.subs;
    if s.drains[i].pc.Sweep? || s.drains[i].pc.Notify? {
      assert s'.gate == s.gate;
    }
    ClosersUpdate(s.drains, s.gate, i, s'.drains[i], s'.gate);
  }

  lemma LockBegin(s: State, i: nat, drains: seq<Drainer>, logs: Logs)
    requires ClosersOk(s.drains, s.gate) && i < |s.drains| && s.drains[i].pc.Off? && BeginSweep(s, i, drains, logs)
    ensures ClosersOk(drains, s.gate)
  {
  }

  lemma LockBatcher(c: Config, s: State, ch: Choice, s': State)
    requires Control(s) && Lock(s) && BatcherStep(c, s, ch, s')
    ensures Lock(s')
  {
    hide FormNext, AccumulateNext;
    if RunStep(c, s, ch, s') { LockRun(c, s, ch, s'); }
    else { FormsOn(c, s.m, s.gate.shut, StopSignal(s.flags), ch, s.pc); }
  }

  /** Batch formation leads back to the run loop. */
  lemma FormsOn(c: Config, m: Matrix, shut: set<nat>, stop: bool, ch: Choice, pc: Pc)
    ensures var f := FormNext(c, m, shut, stop, ch, pc); f.Formed? ==> !Stopped(f.pc) && !f.pc.Draining?
    ensures var f := AccumulateNext(c, m, shut, stop, ch, pc); f.Formed? ==> !Stopped(f.pc) && !f.pc.Draining?
  {
  }

  lemma LockRun(c: Config, s: State, ch: Choice, s': State)
    requires Control(s) && Lock(s) && RunStep(c, s, ch, s')
    ensures Lock(s')
  {
    RunFrame(c, s, ch, s');
    RunProgress(c, s, ch, s');
    LockChannels(c, s, ch, s');
    hide RunStep, SubsOk, GateOk, ChansClosedOk;
    if s'.drains != s.drains { LockBegin(s, 0, s'.drains, s'.logs); }
    else { LockReturn(c, s, ch, s'); }
  }

  lemma LockReturn(c: Config, s: State, ch: Choice, s': State)
    requires Control(s) && RunStep(c, s, ch, s') && ClosersOk(s.drains, s.gate) && ReturnOk(s.pc, s.gate)
    ensures ReturnOk(s'.pc, s.gate)
  {
    assert DrainerOk(s.drains[0].pc, s.gate);
  }

  lemma LockChannels(c: Config, s: State, ch: Choice, s': State)
    requires RunStep(c, s, ch, s') && ChansClosedOk(s.pc, s.chans.closed) && !s.panicked
    ensures ChansClosedOk(s'.pc, s'.chans.closed) && !s'.panicked
  {
  }

  lemma LockStopper(s: State, i: nat, s': State)
    requires Control(s) && Lock(s) && StopperStep(s, i, s')
    ensures Lock(s')
  {
    if s'.stops[i] == StopDraining {
      assert StopperOk(s, i);
      LockBegin(s, i + 1, s'.drains, s'.logs);
    }
  }

  lemma LockStep(c: Config, s: State, a: Action, s': State)
    requires Control(s) && Lock(s) && Step(c, s, a, s')
    ensures Lock(s')
  {
    hide BatcherStep, SubmitterStep, DrainerStep, WorkerStep, StopperStep;
    match a
    case Submitter(r) => LockSubmitter(c, s, r, s');
    case DrainerTurn(i) => LockDrainer(s, i, s');
    case Batcher(ch) => LockBatcher(c, s, ch, s');
    case StopperTurn(i) => LockStopper(s, i, s');
    case WorkerTurn(w, ch) => WorkerFrame(s, w, ch, s');
    case _ =>
  }
}
