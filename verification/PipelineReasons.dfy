/**
 Why things happen: what ends a batch, what wakes the batcher, what a submission is told, and what makes a worker
 leave. Each holds at every step of every run.
 */
module PipelineReasons {
  import opened Models
  import opened Ordering
  import opened Pipeline
  import opened PipelineControl
  import opened PipelineFlow
  import opened PipelineWake
  import opened PipelineOrder
  import opened PipelineProgress
  import opened PipelineConserve
  import opened PipelineAccount
  import opened PipelineEnding
  import opened PipelineShutdown
  import opened PipelineTheorems

  lemma StepAt(c: Config, states: seq<State>, actions: seq<Action>, m: nat)
    requires Run(c, states, actions) && m < |actions|
    ensures |states| == |actions| + 1
    ensures Step(c, states[m], actions[m], states[m + 1])
  {
    hide Step;
  }

  /** Only the batcher moves itself. */
  lemma OnlyBatcher(c: Config, s: State, a: Action, s': State)
    requires Step(c, s, a, s') && !a.Batcher?
    ensures s'.pc == s.pc
  {
    hide SubmitterStep, DrainerStep, WorkerStep, StopperStep;
    match a
    case Submitter(r) => SubmitterFrame(c, s, r, s');
    case DrainerTurn(i) => DrainMoves(s, i, s');
    case StopperTurn(i) => StopperFrame(s, i, s');
    case WorkerTurn(w, ch) => WorkerFrame(s, w, ch, s');
    case _ =>
  }

  // ----- What ends a batch -----

  /** formBatch holds the requests Drain returned and has not yet decided to let them go. */
  predicate Gathering(pc: Pc) { pc.FlushCheck? || Accumulating(pc) }

  /**
   A batch stops growing for one of the reasons there are: it is full; the strategy said to flush; the timer fired, or
   a stop signal came, while the batcher was parked; or a request of a higher class is queued. Nothing is lost then.
   */
  lemma WhyBatchEnds(c: Config, states: seq<State>, actions: seq<Action>, m: nat)
    requires Run(c, states, actions) && m < |actions|
    requires Gathering(states[m].pc) && !Gathering(states[m + 1].pc)
    ensures var s, s' := states[m], states[m + 1];
            s'.pc.Rearm? && Hand(s'.pc) == Hand(s.pc) && s'.pc.k == s.pc.k && actions[m].Batcher?
            && (|Hand(s.pc)| >= c.maxBatch
                || (actions[m] == Batcher(Flush) && (s.pc.FlushCheck? || s.pc.AccFlush?))
                || (s.pc.AccPark? && actions[m] == Batcher(Timer))
                || (s.pc.AccPark? && actions[m] != Batcher(Go) && StopSignal(s.flags))
                || exists h: Rank :: ClassOf(h) > ClassOf(s.pc.k) && s.m.queues[h] != [])
  {
    StepAt(c, states, actions, m);
    var s, s' := states[m], states[m + 1];
    hide Run;
    if !actions[m].Batcher? { OnlyBatcher(c, s, actions[m], s'); }
    else {
      BatchSteps(c, s, actions[m].ch, s');
      hide Step, Potential, HigherCount, HigherCell;
      if s.pc.AccHigher? && s.pc.j < HigherCount(s.pc.k) { HigherCells(s.pc.k, HigherCell(s.pc.k, s.pc.j)); }
    }
  }

  /** And it does stop when told: full, flushed, or out of time. */
  lemma BatchEndsWhenTold(c: Config, states: seq<State>, actions: seq<Action>, m: nat)
    requires Run(c, states, actions) && m < |actions| && actions[m].Batcher? && Gathering(states[m].pc)
    ensures var s, s' := states[m], states[m + 1];
            (actions[m] == Batcher(Flush) && (s.pc.FlushCheck? || s.pc.AccFlush?))
            || (actions[m] == Batcher(Timer) && s.pc.AccPark?)
            || ((s.pc.FlushCheck? || s.pc.AccTop?) && |Hand(s.pc)| >= c.maxBatch)
            ==> s'.pc.Rearm?
  {
    StepAt(c, states, actions, m);
    var s, s' := states[m], states[m + 1];
    hide Run;
    BatchSteps(c, s, actions[m].ch, s');
  }

  // ----- What wakes the batcher -----

  /** The batcher wakes only on the token and takes it; otherwise it leaves its waits for the reasons above. */
  lemma WakeTakesToken(c: Config, states: seq<State>, actions: seq<Action>, m: nat)
    requires Run(c, states, actions) && m < |actions|
    requires (states[m].pc.Wait? && !states[m + 1].pc.Wait?) || (states[m].pc.AccPark? && states[m + 1].pc.AccTop?)
    ensures var s, s' := states[m], states[m + 1];
            if s'.pc.DrainCall? || s'.pc.AccTop? then s.m.token && !s'.m.token && Hand(s'.pc) == Hand(s.pc)
            else StopSignal(s.flags) && Hand(s'.pc) == []
  {
    StepAt(c, states, actions, m);
    var s, s' := states[m], states[m + 1];
    hide Run;
    if !actions[m].Batcher? { OnlyBatcher(c, s, actions[m], s'); } else { WaitStep(c, s, actions[m].ch, s'); }
  }

  lemma WaitStep(c: Config, s: State, ch: Choice, s': State)
    requires BatcherStep(c, s, ch, s') && (s.pc.Wait? || s.pc.AccPark?)
    ensures s'.pc == s.pc || s'.pc.DrainCall? || s'.pc.AccTop? || s'.pc.Rearm?
    ensures s.pc.AccPark? && s'.pc.AccTop? ==> s.m.token && !s'.m.token && Hand(s'.pc) == Hand(s.pc)
    ensures s.pc.Wait? ==> !s'.pc.AccTop?
    ensures s.pc.Wait? && s'.pc.DrainCall? ==> s.m.token && !s'.m.token
    ensures s.pc.Wait? && s'.pc.Rearm? ==> StopSignal(s.flags) && Hand(s'.pc) == []
  {
  }

  /** The token is set by a Submit that was accepted, or by a batcher that found depth above zero. */
  lemma WhoSetsToken(c: Config, states: seq<State>, actions: seq<Action>, m: nat)
    requires Run(c, states, actions) && m < |actions| && !states[m].m.token && states[m + 1].m.token
    ensures var s, a := states[m], actions[m];
            (a.Submitter? && a.r in s.subs && s.subs[a.r] == Added) || (a.Batcher? && s.pc.Resignal?)
  {
    StepAt(c, states, actions, m);
    var s, s' := states[m], states[m + 1];
    hide Run;
    match actions[m]
    case DrainerTurn(i) => TokenDrainer(s, i, s');
    case StopperTurn(i) => StopperFrame(s, i, s');
    case WorkerTurn(w, ch) => hide WorkerStep; WorkerFrame(s, w, ch, s');
    case Submitter(r) =>
    case Batcher(ch) => TokenBatcher(c, s, ch, s');
    case _ =>
  }

  lemma TokenDrainer(s: State, i: nat, s': State)
    requires DrainerStep(s, i, s')
    ensures s'.m.token == s.m.token
  {
  }

  lemma TokenBatcher(c: Config, s: State, ch: Choice, s': State)
    requires BatcherStep(c, s, ch, s') && !s.m.token && s'.m.token
    ensures s.pc.Resignal?
  {
    if RunStep(c, s, ch, s') { RunFrame(c, s, ch, s'); }
  }

  /** Re-arming looks at depth: the batcher signals itself exactly when it is above zero. */
  lemma RearmIff(c: Config, states: seq<State>, actions: seq<Action>, m: nat)
    requires Run(c, states, actions) && m < |actions| && states[m].pc.Rearm? && actions[m].Batcher?
    ensures states[m + 1].pc.Resignal? <==> states[m].m.depth > 0
    ensures Hand(states[m + 1].pc) == Hand(states[m].pc)
    ensures !states[m + 1].pc.Resignal? ==>
      states[m + 1].pc == if Hand(states[m].pc) == [] then Top else Dispatch(states[m].pc.k, Hand(states[m].pc))
  {
    StepAt(c, states, actions, m);
    hide Run;
    BatchSteps(c, states[m], actions[m].ch, states[m + 1]);
  }

  // ----- What a submission is told -----

  /** A Submit begins exactly when Stop has not been called. */
  lemma EnterIff(c: Config, s: State, r: Request)
    ensures (exists s' :: Step(c, s, Enter(r), s')) <==> !s.flags.stopping && r !in s.logs.seen
  {
    var s' := s.(subs := s.subs[r := Entered], logs := s.logs.(seen := s.logs.seen + {r}));
    if !s.flags.stopping && r !in s.logs.seen { assert Step(c, s, Enter(r), s'); }
  }

  /** Past the read lock it is refused exactly when the matrix is closed, then accepted exactly when there is room. */
  lemma SubmitOutcome(c: Config, states: seq<State>, actions: seq<Action>, m: nat, r: Request)
    requires Run(c, states, actions) && m < |actions| && actions[m] == Submitter(r) && r in states[m].subs
    ensures var s, s' := states[m], states[m + 1];
            var room := |s.m.queues[c.route(r)]| < c.perQueue;
            (s.subs[r] == Locked ==> r in s'.subs && (s'.subs[r] == if s.gate.closed then Leaving else Checked))
            && (s.subs[r] == Checked ==>
                  s'.logs.accepted == (if room then s.logs.accepted + [r] else s.logs.accepted)
                  && r in s'.subs && (s'.subs[r] == if room then Pushed else Leaving))
            && (s.subs[r] == Added ==> s'.m.token)
            && (s.subs[r] != Checked ==> s'.logs.accepted == s.logs.accepted)
  {
    StepAt(c, states, actions, m);
    InvRun(c, states, actions, m);
    hide Run, Timely, Faithful, Accounts, Shape, Control, Busy, Ending;
    SubmitTurn(c, states[m], r, states[m + 1]);
  }

  lemma SubmitTurn(c: Config, s: State, r: Request, s': State)
    requires Lock(s) && SubmitterStep(c, s, r, s')
    ensures var room := |s.m.queues[c.route(r)]| < c.perQueue;
            (s.subs[r] == Locked ==> r in s'.subs && (s'.subs[r] == if s.gate.closed then Leaving else Checked))
            && (s.subs[r] == Checked ==>
                  s'.logs.accepted == (if room then s.logs.accepted + [r] else s.logs.accepted)
                  && r in s'.subs && (s'.subs[r] == if room then Pushed else Leaving))
            && (s.subs[r] == Added ==> s'.m.token)
            && (s.subs[r] != Checked ==> s'.logs.accepted == s.logs.accepted)
  {
  }

  /** Once Stop has set its flag, no request accepted later began after that. */
  lemma StoppingRefuses(c: Config, states: seq<State>, actions: seq<Action>, i: nat, j: nat, r: Request)
    requires Run(c, states, actions) && i <= j < |states| && states[i].flags.stopping && r !in states[i].logs.seen
    ensures r !in states[j].logs.accepted
  {
    hide Run;
    StoppingStays(c, states, actions, i, j);
    if r in states[j].logs.accepted { AcceptedSeen(c, states, actions, j, r); }
  }

  lemma {:induction false} StoppingStays(c: Config, states: seq<State>, actions: seq<Action>, i: nat, j: nat)
    requires Run(c, states, actions) && i <= j < |states| && states[i].flags.stopping
    ensures states[j].flags.stopping && states[j].logs.seen == states[i].logs.seen
    decreases j
  {
    hide Run;
    if i < j {
      StoppingStays(c, states, actions, i, j - 1);
      SeenOnce(c, states, actions, j - 1);
    }
  }

  lemma SeenOnce(c: Config, states: seq<State>, actions: seq<Action>, m: nat)
    requires Run(c, states, actions) && m + 1 < |states| && states[m].flags.stopping
    ensures states[m + 1].flags.stopping && states[m + 1].logs.seen == states[m].logs.seen
  {
    StepAt(c, states, actions, m);
    hide Run, Step;
    SeenStays(c, states[m], actions[m], states[m + 1]);
  }

  lemma SeenStays(c: Config, s: State, a: Action, s': State)
    requires Step(c, s, a, s') && s.flags.stopping
    ensures s'.flags.stopping && s'.logs.seen == s.logs.seen
  {
    hide BatcherStep, SubmitterStep, DrainerStep, WorkerStep, StopperStep;
    match a
    case Submitter(r) => SubmitterFrame(c, s, r, s');
    case Batcher(ch) => SeenBatcher(c, s, ch, s');
    case DrainerTurn(i) => DrainMoves(s, i, s');
    case StopperTurn(i) => SeenStopper(s, i, s');
    case WorkerTurn(w, ch) => WorkerFrame(s, w, ch, s');
    case _ =>
  }

  lemma SeenBatcher(c: Config, s: State, ch: Choice, s': State)
    requires BatcherStep(c, s, ch, s')
    ensures s'.flags.stopping == s.flags.stopping && s'.logs.seen == s.logs.seen
  {
    hide FormNext, AccumulateNext;
    if RunStep(c, s, ch, s') { RunFrame(c, s, ch, s'); } else { FormMoves(c, s, ch, s'); }
  }

  lemma SeenStopper(s: State, i: nat, s': State)
    requires StopperStep(s, i, s') && s.flags.stopping
    ensures s'.flags.stopping && s'.logs.seen == s.logs.seen
  {
  }

  // ----- What makes a worker leave -----

  /** A worker leaves Run only on an empty, closed channel it watches, or in its blocking select on a cancelled pool. */
  lemma WhyWorkerLeaves(c: Config, states: seq<State>, actions: seq<Action>, m: nat, w: nat)
    requires Run(c, states, actions) && m < |actions| && w < |states[m].workers|
    requires !states[m].workers[w].Exited? && w < |states[m + 1].workers| && states[m + 1].workers[w].Exited?
    ensures var s := states[m];
            s.workers[w].Level?
            && ((exists cl: nat :: cl < PRIORITIES && cl in s.chans.closed && |s.chans.sent[cl]| <= s.chans.taken[cl])
                || (s.workers[w].l >= 3 && s.flags.poolDone))
  {
    StepAt(c, states, actions, m);
    var s, s' := states[m], states[m + 1];
    hide Run;
    match actions[m]
    case Batcher(ch) => BatcherWorkers(c, s, ch, s');
    case WorkerTurn(v, ch) => if v == w { LeaveStep(s, w, ch, s'); } else { OtherWorker(s, v, ch, s', w); }
    case Submitter(r) => hide SubmitterStep; SubmitterFrame(c, s, r, s');
    case DrainerTurn(i) => hide DrainerStep; DrainMoves(s, i, s');
    case StopperTurn(i) => hide StopperStep; StopperFrame(s, i, s');
    case _ =>
  }

  lemma OtherWorker(s: State, v: nat, ch: WorkerChoice, s': State, w: nat)
    requires WorkerStep(s, v, ch, s') && v != w && w < |s.workers|
    ensures w < |s'.workers| && s'.workers[w] == s.workers[w]
  {
  }

  lemma LeaveStep(s: State, w: nat, ch: WorkerChoice, s': State)
    requires WorkerStep(s, w, ch, s') && !s.workers[w].Exited? && s'.workers[w].Exited?
    ensures s.workers[w].Level?
    ensures (exists cl: nat :: cl < PRIORITIES && cl in s.chans.closed && |s.chans.sent[cl]| <= s.chans.taken[cl])
            || (s.workers[w].l >= 3 && s.flags.poolDone)
  {
    if s.workers[w].Level? {
      if ch.SeeClosed? { assert Watched(s.workers[w].l, ch.c); }
    }
  }

  /** It passes on from one select to the next only when every channel watched there is empty and open. */
  lemma FallsOnlyWhenEmpty(c: Config, states: seq<State>, actions: seq<Action>, m: nat, w: nat, cl: nat)
    requires Run(c, states, actions) && m < |actions| && w < |states[m].workers| && w < |states[m + 1].workers|
    requires states[m].workers[w].Level? && states[m + 1].workers[w].Level? && cl < PRIORITIES
    requires states[m + 1].workers[w].l != states[m].workers[w].l && cl + states[m].workers[w].l >= 3
    ensures var s := states[m];
            states[m + 1].workers[w].l == s.workers[w].l + 1 && s.workers[w].l < 3
            && |s.chans.sent[cl]| <= s.chans.taken[cl] && cl !in s.chans.closed
  {
    StepAt(c, states, actions, m);
    var s, s' := states[m], states[m + 1];
    hide Run;
    match actions[m]
    case Batcher(ch) => BatcherWorkers(c, s, ch, s');
    case WorkerTurn(v, ch) => if v != w { OtherWorker(s, v, ch, s', w); } else { FallStep(s, w, ch, s', cl); }
    case Submitter(r) => hide SubmitterStep; SubmitterFrame(c, s, r, s');
    case DrainerTurn(i) => hide DrainerStep; DrainMoves(s, i, s');
    case StopperTurn(i) => hide StopperStep; StopperFrame(s, i, s');
    case _ =>
  }

  lemma FallStep(s: State, w: nat, ch: WorkerChoice, s': State, cl: nat)
    requires WorkerStep(s, w, ch, s') && s.workers[w].Level? && s'.workers[w].Level?
    requires cl < PRIORITIES && cl + s.workers[w].l >= 3
    ensures s'.workers[w].l == s.workers[w].l + 1 && s.workers[w].l < 3
    ensures |s.chans.sent[cl]| <= s.chans.taken[cl] && cl !in s.chans.closed
  {
    assert Watched(s.workers[w].l, cl);
  }

  // ----- Who can move -----

  /** What the batcher waits for: a token or a stop, room or a stop, the drain it began; or nothing any more. */
  ghost predicate BatcherWaits(c: Config, s: State) {
    match s.pc
    case Wait => !s.m.token && !StopSignal(s.flags)
    case Dispatch(k, _) =>
      !StopSignal(s.flags) && |s.chans.sent[ClassOf(k)]| - s.chans.taken[ClassOf(k)] >= c.chanCap
    case Draining => s.drains == [] || !s.drains[0].pc.Finished?
    case Gone => true
    case _ => false
  }

  /** The batcher can move exactly when it has nothing to wait for. */
  lemma BatcherMovesIff(c: Config, states: seq<State>, actions: seq<Action>, i: nat)
    requires Run(c, states, actions) && i < |states|
    ensures |states[i].drains| > 0
    ensures (exists ch, s' :: Step(c, states[i], Batcher(ch), s') && s' != states[i]) <==> !BatcherWaits(c, states[i])
  {
    InvRun(c, states, actions, i);
    var s := states[i];
    hide Run, Timely, Faithful, Accounts;
    if BatcherWaits(c, s) {
      forall ch, s'
        ensures !Step(c, s, Batcher(ch), s')
      {
        WaitsStill(c, s, ch, s');
      }
    } else {
      BatcherCan(c, s);
    }
  }

  lemma WaitsStill(c: Config, s: State, ch: Choice, s': State)
    requires Lock(s) && |s.drains| > 0 && BatcherWaits(c, s)
    ensures !BatcherStep(c, s, ch, s')
  {
    hide AccumulateNext;
  }

  ghost predicate CanStep(c: Config, s: State) {
    exists ch, s' :: Step(c, s, Batcher(ch), s') && s' != s
  }

  lemma BatcherCan(c: Config, s: State)
    requires Control(s) && Lock(s) && !BatcherWaits(c, s)
    ensures CanStep(c, s)
  {
    hide StoppersOk, SubsOk, GateOk, ClosersOk, CanStep;
    match s.pc
    case NotStarted => RunMoves(c, s, Go, s.(flags := s.flags.(started := true), pc := Top));
    case Top => if StopSignal(s.flags) { GiveUpMoves(c, s); } else { FormMovesOn(c, s, Go); }
    case Dispatch(k, reqs) =>
      var cl := ClassOf(k);
      if StopSignal(s.flags) { RunMoves(c, s, Abort, s.(pc := Failing(reqs))); }
      else { DispatchMoves(c, s, k, reqs); }
    case Failing(rest) =>
      if rest == [] { GiveUpMoves(c, s); }
      else { RunMoves(c, s, Go, s.(box := Retire(s.box, rest[0], ShuttingDown), pc := Failing(rest[1..]))); }
    case Draining => RunMoves(c, s, Go, s.(pc := Returned));
    case Returned => RunMoves(c, s, Go, s.(pc := ClosingChans(0)));
    case ClosingChans(i) =>
      RunMoves(c, s, Go, if i >= PRIORITIES then s.(pc := Gone)
                         else s.(chans := s.chans.(closed := s.chans.closed + {i}), pc := ClosingChans(i + 1)));
    case Wait => FormMovesOn(c, s, if s.m.token then Go else Abort);
    case AccPark(_, _, _) => FormMovesOn(c, s, Timer);
    case _ => FormMovesOn(c, s, Go);
  }

  lemma RunMoves(c: Config, s: State, ch: Choice, s': State)
    requires RunStep(c, s, ch, s') && s'.pc != s.pc
    ensures CanStep(c, s)
  {
    hide RunStep, FormNext, AccumulateNext;
    assert BatcherStep(c, s, ch, s');
    assert Step(c, s, Batcher(ch), s');
  }

  /** With room on its channel a batch is sent, at the end of the channel. */
  lemma DispatchMoves(c: Config, s: State, k: Rank, reqs: seq<Request>)
    requires Lock(s) && s.pc == Dispatch(k, reqs)
    requires |s.chans.sent[ClassOf(k)]| - s.chans.taken[ClassOf(k)] < c.chanCap
    ensures CanStep(c, s)
  {
    var cl := ClassOf(k);
    var s' := s.(chans := s.chans.(sent := s.chans.sent[cl := s.chans.sent[cl] + [Batch(k, reqs)]]),
                 logs := s.logs.(dispatched := s.logs.dispatched + reqs), pc := Top);
    assert DispatchStep(c, s, k, reqs, Go, s');
    hide DispatchStep;
    RunMoves(c, s, Go, s');
  }

  lemma GiveUpMoves(c: Config, s: State)
    requires |s.drains| > 0 && (s.pc == Failing([]) || (s.pc.Top? && StopSignal(s.flags)))
    ensures CanStep(c, s)
  {
    var s' := s.(drains := s.drains[0 := Drainer(Sweep(0, []), s.m.queues, [])],
                 logs := if AllOff(s) then s.logs.(drainMark := |s.logs.received|) else s.logs, pc := Draining);
    assert GiveUpStep(s, s');
    RunMoves(c, s, Go, s');
  }

  lemma FormMovesOn(c: Config, s: State, ch: Choice)
    requires Control(s) && (InBatch(s.pc) || s.pc.Wait? || (s.pc.Top? && !StopSignal(s.flags)))
    requires s.pc.Wait? ==> if s.m.token then ch == Go else ch == Abort && StopSignal(s.flags)
    requires s.pc.AccPark? ==> ch == Timer
    requires !s.pc.Wait? && !s.pc.AccPark? ==> ch == Go
    ensures CanStep(c, s)
  {
    var stop := StopSignal(s.flags);
    var f := if Forming(s.pc) then FormNext(c, s.m, s.gate.shut, stop, ch, s.pc)
             else AccumulateNext(c, s.m, s.gate.shut, stop, ch, s.pc);
    assert f.Formed? && f.pc != s.pc;
    var s' := s.(m := f.m, logs := s.logs.(received := s.logs.received + f.got), pc := f.pc);
    hide FormNext, AccumulateNext;
    assert BatcherStep(c, s, ch, s');
    assert Step(c, s, Batcher(ch), s');
  }

  /** A worker can move exactly when it has a batch in hand or one to take, a reason to leave, or a select to pass. */
  lemma WorkerMovesIff(c: Config, s: State, w: nat)
    requires w < |s.workers| && Pulls(s)
    ensures (exists ch, s' :: Step(c, s, WorkerTurn(w, ch), s') && s' != s)
            <==> !s.workers[w].Exited?
                 && (s.workers[w].Level? && s.workers[w].l >= 3 ==>
                       s.flags.poolDone
                       || exists cl: nat :: cl < PRIORITIES
                                            && (cl in s.chans.closed || |s.chans.sent[cl]| > s.chans.taken[cl]))
  {
    var p := s.workers[w];
    assert PullAt(p, s.chans.sent, s.chans.taken);
    if p.Level? {
      PullMovesIff(c, s, w);
    } else if !p.Exited? {
      ProcessMoves(c, s, w);
    }
  }

  lemma ProcessMoves(c: Config, s: State, w: nat)
    requires w < |s.workers| && !s.workers[w].Level? && !s.workers[w].Exited?
    ensures exists ch, s' :: Step(c, s, WorkerTurn(w, ch), s') && s' != s
  {
    var h := ProcessNext(s.workers[w], Accept, Level(0, Lengths(s.chans.sent)));
    assert h.p != s.workers[w];
    var s' := s.(workers := s.workers[w := h.p],
                 box := if h.out.Some? then Retire(s.box, h.out.value.0, h.out.value.1) else s.box);
    assert s'.workers[w] == h.p;
    hide ProcessNext;
    assert WorkerStep(s, w, Accept, s');
    assert Step(c, s, WorkerTurn(w, Accept), s');
  }

  ghost predicate CanPull(c: Config, s: State, w: nat) {
    exists ch, s' :: Step(c, s, WorkerTurn(w, ch), s') && s' != s
  }

  lemma PullBy(c: Config, s: State, w: nat, ch: WorkerChoice, s': State)
    requires w < |s.workers| && s.workers[w].Level? && PullStep(s, w, s.workers[w].l, s.workers[w].mark, ch, s')
    requires s'.workers != s.workers
    ensures CanPull(c, s, w)
  {
    hide PullStep;
    assert WorkerStep(s, w, ch, s');
    assert Step(c, s, WorkerTurn(w, ch), s');
  }

  lemma PullMovesIff(c: Config, s: State, w: nat)
    requires w < |s.workers| && s.workers[w].Level? && s.workers[w].l <= 3
    ensures CanPull(c, s, w)
            <==> (s.workers[w].l >= 3 ==>
                    s.flags.poolDone
                    || exists cl: nat :: cl < PRIORITIES
                                         && (cl in s.chans.closed || |s.chans.sent[cl]| > s.chans.taken[cl]))
  {
    var l, mark := s.workers[w].l, s.workers[w].mark;
    if cl: nat :| Watched(l, cl) && !Drained(s.chans, cl) {
      TakeCan(c, s, w, cl);
      if l >= 3 { assert cl < PRIORITIES; }
    } else if cl: nat :| Watched(l, cl) && cl in s.chans.closed {
      var s' := s.(workers := s.workers[w := Exited]);
      assert s'.workers[w] != s.workers[w];
      PullBy(c, s, w, SeeClosed(cl), s');
    } else if l < 3 {
      var s' := s.(workers := s.workers[w := Level(l + 1, mark)]);
      assert s'.workers[w] != s.workers[w];
      PullBy(c, s, w, Fall, s');
    } else {
      assert forall cl: nat :: cl < PRIORITIES ==> Watched(l, cl);
      if s.flags.poolDone {
        var s' := s.(workers := s.workers[w := Exited]);
        assert s'.workers[w] != s.workers[w];
        PullBy(c, s, w, SeeCtx, s');
      } else {
        NobodyPulls(c, s, w);
      }
    }
  }

  lemma NobodyPulls(c: Config, s: State, w: nat)
    requires w < |s.workers| && s.workers[w].Level? && s.workers[w].l == 3 && !s.flags.poolDone
    requires forall cl: nat :: Watched(3, cl) ==> Drained(s.chans, cl) && cl !in s.chans.closed
    ensures !CanPull(c, s, w)
    ensures !exists cl: nat :: cl < PRIORITIES && (cl in s.chans.closed || |s.chans.sent[cl]| > s.chans.taken[cl])
  {
    forall ch, s'
      ensures !Step(c, s, WorkerTurn(w, ch), s')
    {
      NoPull(s, w, ch, s');
      hide WorkerStep;
    }
    forall cl: nat | cl < PRIORITIES
      ensures cl !in s.chans.closed && |s.chans.sent[cl]| <= s.chans.taken[cl]
    {
      assert Watched(3, cl);
    }
  }

  lemma NoPull(s: State, w: nat, ch: WorkerChoice, s': State)
    requires w < |s.workers| && s.workers[w].Level? && s.workers[w].l == 3 && !s.flags.poolDone
    requires forall cl: nat :: Watched(3, cl) ==> Drained(s.chans, cl) && cl !in s.chans.closed
    ensures !WorkerStep(s, w, ch, s')
  {
  }

  /** A watched batch can be taken: the oldest one buffered, whole. */
  lemma TakeCan(c: Config, s: State, w: nat, cl: nat)
    requires w < |s.workers| && s.workers[w].Level? && cl < PRIORITIES && cl + s.workers[w].l >= 3
    requires s.chans.taken[cl] < |s.chans.sent[cl]|
    ensures exists s' :: Step(c, s, WorkerTurn(w, Take(cl)), s')
                         && s'.workers == s.workers[w := Admit(s.chans.sent[cl][s.chans.taken[cl]].requests)]
    ensures CanPull(c, s, w)
  {
    assert Watched(s.workers[w].l, cl) && !Drained(s.chans, cl);
    var s' := s.(workers := s.workers[w := Admit(s.chans.sent[cl][s.chans.taken[cl]].requests)],
                 chans := s.chans.(taken := s.chans.taken[cl := s.chans.taken[cl] + 1]));
    assert s'.workers[w] != s.workers[w];
    PullBy(c, s, w, Take(cl), s');
    assert WorkerStep(s, w, Take(cl), s');
    assert Step(c, s, WorkerTurn(w, Take(cl)), s');
  }

  /** A Submit waits only for the lock. */
  lemma SubmitterMovesIff(c: Config, states: seq<State>, actions: seq<Action>, i: nat, r: Request)
    requires Run(c, states, actions) && i < |states| && r in states[i].subs
    ensures (exists s' :: Step(c, states[i], Submitter(r), s') && s' != states[i])
            <==> (states[i].subs[r] == Entered ==> !states[i].gate.writer)
  {
    InvRun(c, states, actions, i);
    var s := states[i];
    hide Run, Timely, Faithful, Accounts, Shape, Control, Busy, Ending;
    if s.subs[r] == Entered {
      var s' := s.(subs := s.subs[r := Locked]);
      assert s'.subs[r] != s.subs[r];
      if !s.gate.writer { assert Step(c, s, Submitter(r), s'); }
    } else {
      SubmitterTurn(c, s, r);
    }
  }

  // ----- Stop -----

  /** A Stop goes through its stages in order, drains exactly when it finds the batcher not started, and returns only
      from its wait or behind that drain. */
  lemma StopStages(c: Config, states: seq<State>, actions: seq<Action>, m: nat, i: nat)
    requires Run(c, states, actions) && m < |actions| && i < |states[m].stops| && i < |states[m + 1].stops|
    requires i + 1 < |states[m].drains| && states[m + 1].stops[i] != states[m].stops[i]
    ensures var s := states[m]; var s' := states[m + 1];
            s'.stops[i] == match s.stops[i]
                           case Idle => Flagged
                           case Flagged => ChanClosed
                           case ChanClosed => if s.flags.started then Waiting else StopDraining
                           case _ => StopReturned
    ensures var s := states[m];
            (s.stops[i] == StopDraining ==> s.drains[i + 1].pc.Finished?) && s.stops[i] != StopReturned
  {
    StepAt(c, states, actions, m);
    var s, s' := states[m], states[m + 1];
    hide Run, BatcherStep, SubmitterStep, DrainerStep, WorkerStep, StopperStep;
    match actions[m]
    case Batcher(ch) => StopsStay(c, s, ch, s');
    case StopperTurn(v) => StageStep(s, v, s', i);
    case Submitter(r) => SubmitterFrame(c, s, r, s');
    case DrainerTurn(d) => DrainMoves(s, d, s');
    case WorkerTurn(w, ch) => WorkerFrame(s, w, ch, s');
    case _ =>
  }

  lemma StageStep(s: State, v: nat, s': State, i: nat)
    requires StopperStep(s, v, s') && i < |s.stops| && i < |s'.stops| && i + 1 < |s.drains|
    requires s'.stops[i] != s.stops[i]
    ensures s'.stops[i] == match s.stops[i]
                           case Idle => Flagged
                           case Flagged => ChanClosed
                           case ChanClosed => if s.flags.started then Waiting else StopDraining
                           case _ => StopReturned
    ensures (s.stops[i] == StopDraining ==> s.drains[i + 1].pc.Finished?) && s.stops[i] != StopReturned
  {
    assert v == i;
  }

  lemma StopsStay(c: Config, s: State, ch: Choice, s': State)
    requires BatcherStep(c, s, ch, s')
    ensures s'.stops == s.stops
  {
    hide FormNext, AccumulateNext;
    if RunStep(c, s, ch, s') { RunFrame(c, s, ch, s'); } else { FormMoves(c, s, ch, s'); }
  }

  /** Once a Stop has begun, no request accepted later began after that. */
  lemma StopRefuses(c: Config, states: seq<State>, actions: seq<Action>, i: nat, j: nat, n: nat, r: Request)
    requires Run(c, states, actions) && i <= j < |states| && n < |states[i].stops| && states[i].stops[n] != Idle
    requires r !in states[i].logs.seen
    ensures r !in states[j].logs.accepted
  {
    InvRun(c, states, actions, i);
    assert states[i].flags.stopping by { assert StopsFlagged(states[i]); }
    hide Run, Inv;
    StoppingRefuses(c, states, actions, i, j, r);
  }

  // ----- Sends -----

  /** A step sends to at most one result channel, and leaves that one full. */
  ghost predicate OneSend(b: Outbox, b': Outbox) {
    || (b'.retired == b.retired && b'.filled <= b.filled)
    || (exists r, o ::
          b'.retired == b.retired + [(r, o)] && b'.filled == if o == Skipped then b.filled else b.filled + {r})
  }

  lemma SendStep(c: Config, s: State, a: Action, s': State)
    requires Step(c, s, a, s')
    ensures OneSend(s.box, s'.box)
  {
    hide BatcherStep, SubmitterStep, DrainerStep, WorkerStep, StopperStep;
    match a
    case Submitter(r) => SubmitterFrame(c, s, r, s');
    case Batcher(ch) => SendBatcher(c, s, ch, s');
    case DrainerTurn(i) => SendDrainer(s, i, s');
    case StopperTurn(i) => StopperFrame(s, i, s');
    case WorkerTurn(w, ch) => SendWorker(s, w, ch, s');
    case _ =>
  }

  lemma RetireSends(b: Outbox, r: Request, o: Outcome)
    ensures OneSend(b, Retire(b, r, o))
  {
    assert Retire(b, r, o).retired == b.retired + [(r, o)];
  }

  lemma SendBatcher(c: Config, s: State, ch: Choice, s': State)
    requires BatcherStep(c, s, ch, s')
    ensures OneSend(s.box, s'.box)
  {
    hide FormNext, AccumulateNext, DispatchStep, CloseStep, OneSend;
    if RunStep(c, s, ch, s') {
      match s.pc
      case Dispatch(k, reqs) => DispatchLogs(c, s, k, reqs, ch, s'); NoSend(s.box);
      case Failing(rest) => if rest == [] { NoSend(s.box); } else { RetireSends(s.box, rest[0], ShuttingDown); }
      case NotStarted => NoSend(s.box);
      case Top => NoSend(s.box);
      case _ => CloserBox(s, s'); NoSend(s.box);
    } else {
      FormMoves(c, s, ch, s');
      NoSend(s.box);
    }
  }

  lemma NoSend(b: Outbox)
    ensures OneSend(b, b)
  {
  }

  lemma CloserBox(s: State, s': State)
    requires CloseStep(s, s')
    ensures s'.box == s.box
  {
  }

  lemma SendDrainer(s: State, i: nat, s': State)
    requires DrainerStep(s, i, s')
    ensures OneSend(s.box, s'.box)
  {
    var p := s.drains[i].pc;
    if p.Notify? && p.rest != [] { RetireSends(s.box, p.rest[0], ShuttingDown); }
  }

  lemma SendWorker(s: State, w: nat, ch: WorkerChoice, s': State)
    requires WorkerStep(s, w, ch, s')
    ensures OneSend(s.box, s'.box)
  {
    var p := s.workers[w];
    if !p.Level? {
      hide ProcessNext, OneSend;
      var h := ProcessNext(p, ch, Level(0, Lengths(s.chans.sent)));
      if h.out.Some? { RetireSends(s.box, h.out.value.0, h.out.value.1); } else { NoSend(s.box); }
    }
  }

  /** Every send finds its result channel empty, so none is ever dropped, and fills it. */
  lemma SendsFindRoom(c: Config, states: seq<State>, actions: seq<Action>, m: nat, r: Request, o: Outcome)
    requires Run(c, states, actions) && m < |actions|
    requires states[m + 1].box.retired == states[m].box.retired + [(r, o)] && o != Skipped
    ensures r !in states[m].box.filled && r in states[m + 1].box.filled
  {
    StepAt(c, states, actions, m);
    ExactlyOnePlace(c, states, actions, m + 1, r);
    FilledRetired(c, states, actions, m, r);
    hide Run, Step;
    SendStep(c, states[m], actions[m], states[m + 1]);
    var b, b' := states[m].box, states[m + 1].box;
    GatherSnoc(Left, b.retired, (r, o), r);
    CountSnoc([], r, r);
    assert [] + [r] == Left((r, o));
    assert b'.retired[|b.retired|] == (r, o);
  }

  lemma FilledRetired(c: Config, states: seq<State>, actions: seq<Action>, m: nat, r: Request)
    requires Run(c, states, actions) && m < |states|
    ensures r in states[m].box.filled ==> Retired(states[m].box.retired, r) >= 1
  {
    InvRun(c, states, actions, m);
    hide Run, Safe, Timely, Accounts, FifoOk, Flow, Shutdown;
    assert Once(states[m], r);
  }
}
