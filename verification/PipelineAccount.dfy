/**
 Accounting. Whatever left the sub-queues was dispatched to the workers, is in the batcher's or a drainer's hand,
 or has been told that the server is shutting down; and only the batcher's side says so.
 */
module PipelineAccount {
  import opened Models
  import opened Ordering
  import opened Pipeline
  import opened PipelineControl
  import opened PipelineFlow
  import opened PipelineConserve

  function Notice(p: (Request, Outcome)): seq<Request> { if p.1 == ShuttingDown then [p.0] else [] }

  /** Shutdown notices sent to x. */
  function Notices(retired: seq<(Request, Outcome)>, x: Request): nat { Gather(Notice, retired, x) }

  ghost predicate Accounted(s: State, x: Request) {
    Count(s.logs.received, x)
      == Count(s.logs.dispatched, x) + InHand(s.pc, x) + InDrains(s.drains, x) + Notices(s.box.retired, x)
  }

  /** A worker fans out no error but these two. */
  ghost predicate Errands(workers: seq<WorkerPc>) {
    forall w :: 0 <= w < |workers| && workers[w].Errors? ==> workers[w].outcome in {Unavailable, EncodeFailed}
  }

  ghost predicate Accounts(s: State) {
    Errands(s.workers) && forall x :: Accounted(s, x)
  }

  lemma AccountsInit(c: Config, s: State)
    requires Init(s)
    ensures Accounts(s)
  {
    forall x
      ensures Accounted(s, x)
    {
      GatherEmpty(DrainHand, s.drains, x);
    }
  }

  lemma ToldMore(b: Outbox, r: Request, o: Outcome, x: Request)
    ensures Notices(Retire(b, r, o).retired, x) == Notices(b.retired, x) + (if o == ShuttingDown then One(r, x) else 0)
  {
    GatherSnoc(Notice, b.retired, (r, o), x);
    CountSnoc([], r, x);
    assert [] + [r] == [r];
  }

  lemma AccountedFrame(s: State, s': State, x: Request)
    requires Accounted(s, x) && s'.logs.received == s.logs.received && s'.logs.dispatched == s.logs.dispatched
    requires Hand(s'.pc) == Hand(s.pc) && s'.drains == s.drains && s'.box.retired == s.box.retired
    ensures Accounted(s', x)
  {
  }

  // ----- The batcher -----

  lemma AccountedForm(c: Config, s: State, ch: Choice, s': State, x: Request)
    requires Accounted(s, x) && BatcherStep(c, s, ch, s') && !RunStep(c, s, ch, s')
    ensures Accounted(s', x)
  {
    FormMoves(c, s, ch, s');
    hide BatcherStep, RunStep, InDrains, Notices, Hand, Count;
    if s'.m.queues != s.m.queues {
      var r := s.m.queues[s.pc.k][0];
      CountSnoc(Hand(s.pc), r, x);
      CountSnoc(s.logs.received, r, x);
    }
  }

  lemma AccountedDispatch(c: Config, s: State, k: Rank, reqs: seq<Request>, ch: Choice, s': State, x: Request)
    requires Accounted(s, x) && s.pc == Dispatch(k, reqs) && DispatchStep(c, s, k, reqs, ch, s')
    ensures Accounted(s', x)
  {
    DispatchFrame(c, s, k, reqs, ch, s');
    DispatchLogs(c, s, k, reqs, ch, s');
    hide DispatchStep, InDrains, Notices, Count;
    CountAppend(s.logs.dispatched, reqs, x);
  }

  lemma DispatchLogs(c: Config, s: State, k: Rank, reqs: seq<Request>, ch: Choice, s': State)
    requires DispatchStep(c, s, k, reqs, ch, s') && s.pc == Dispatch(k, reqs)
    ensures s'.box == s.box
    ensures s'.logs.dispatched == (if s'.pc.Top? then s.logs.dispatched + reqs else s.logs.dispatched)
  {
  }

  lemma AccountedFail(s: State, s': State, x: Request)
    requires Accounted(s, x) && s.pc.Failing? && s.pc.rest != []
    requires s' == s.(box := Retire(s.box, s.pc.rest[0], ShuttingDown), pc := Failing(s.pc.rest[1..]))
    ensures Accounted(s', x)
  {
    CountHead(s.pc.rest, x);
    assert InHand(s.pc, x) == One(s.pc.rest[0], x) + InHand(s'.pc, x);
    hide InHand, Notices, Count, InDrains, Hand;
    ToldMore(s.box, s.pc.rest[0], ShuttingDown, x);
  }

  lemma AccountedBegin(s: State, i: nat, s': State, x: Request)
    requires Accounted(s, x) && i < |s.drains| && DrainHand(s.drains[i]) == [] && BeginSweep(s, i, s'.drains, s'.logs)
    requires Hand(s'.pc) == Hand(s.pc) && s'.box == s.box
    ensures Accounted(s', x)
  {
    GatherUpdate(DrainHand, s.drains, i, s'.drains[i], x);
    hide Notices, InHand;
  }

  lemma AccountedElsewhere(c: Config, s: State, ch: Choice, s': State, x: Request)
    requires Accounted(s, x) && RunStep(c, s, ch, s') && !s.pc.Dispatch? && !s.pc.Top? && !s.pc.Failing?
    ensures Accounted(s', x)
  {
    RunFrame(c, s, ch, s');
    RunQuiet(c, s, ch, s');
    hide RunStep, Hand, InDrains, Notices;
  }

  lemma AccountedRun(c: Config, s: State, ch: Choice, s': State, x: Request)
    requires Control(s) && Accounted(s, x) && RunStep(c, s, ch, s')
    ensures Accounted(s', x)
  {
    hide Accounted, DispatchStep, BeginSweep, CloseStep;
    match s.pc
    case Dispatch(k, reqs) => AccountedDispatch(c, s, k, reqs, ch, s', x);
    case Top => AccountedBegin(s, 0, s', x);
    case Failing(rest) => if rest == [] { AccountedBegin(s, 0, s', x); } else { AccountedFail(s, s', x); }
    case _ => AccountedElsewhere(c, s, ch, s', x);
  }

  // ----- Drainers and workers -----

  lemma AccountedDrainer(s: State, i: nat, s': State, x: Request)
    requires Accounted(s, x) && DrainerStep(s, i, s')
    ensures Accounted(s', x)
  {
    DrainMoves(s, i, s');
    assert i < |s.drains|;
    hide DrainerStep, InHand, Notices, Gather, Count;
    var p := s.drains[i].pc;
    if p.Notify? && p.rest != [] {
      AccountedNotify(s, i, s', x);
    } else {
      DrainerKeeps(s, i, s');
      if s'.m.queues != s.m.queues { AccountedReceive(s, i, s', x); } else { AccountedElse(s, i, s', x); }
    }
  }

  lemma AccountedReceive(s: State, i: nat, s': State, x: Request)
    requires Accounted(s, x) && i < |s.drains| && s.drains[i].pc.Sweep?
    requires s.drains[i].pc.k < CELLS && s.m.queues[s.drains[i].pc.k] != []
    requires var p, r := s.drains[i].pc, s.m.queues[s.drains[i].pc.k][0];
             s'.logs == s.logs.(received := s.logs.received + [r])
             && s'.drains == s.drains[i := s.drains[i].(pc := Sweep(p.k, p.out + [r]))]
    requires s'.pc == s.pc && s'.box == s.box
    ensures Accounted(s', x)
  {
    hide InHand, Notices, Gather, Count;
    var p := s.drains[i].pc;
    var r := s.m.queues[p.k][0];
    GatherUpdate(DrainHand, s.drains, i, s'.drains[i], x);
    CountSnoc(p.out, r, x);
    CountSnoc(s.logs.received, r, x);
  }

  lemma AccountedElse(s: State, i: nat, s': State, x: Request)
    requires Accounted(s, x) && i < |s.drains| == |s'.drains| && s'.drains == s.drains[i := s'.drains[i]]
    requires DrainHand(s'.drains[i]) == DrainHand(s.drains[i]) && s'.pc == s.pc && s'.box == s.box
    requires s'.logs.received == s.logs.received && s'.logs.dispatched == s.logs.dispatched
    ensures Accounted(s', x)
  {
    hide InHand, Notices, Gather, Count, DrainHand;
    GatherUpdate(DrainHand, s.drains, i, s'.drains[i], x);
  }

  lemma AccountedNotify(s: State, i: nat, s': State, x: Request)
    requires Accounted(s, x) && DrainerStep(s, i, s') && s.drains[i].pc.Notify? && s.drains[i].pc.rest != []
    ensures Accounted(s', x)
  {
    var rest := s.drains[i].pc.rest;
    assert DrainHand(s.drains[i]) == rest && DrainHand(s'.drains[i]) == rest[1..];
    hide InHand, Notices, Gather, Count, DrainHand;
    GatherUpdate(DrainHand, s.drains, i, s'.drains[i], x);
    CountHead(rest, x);
    ToldMore(s.box, rest[0], ShuttingDown, x);
  }

  lemma ProcessErrand(p: WorkerPc, ch: WorkerChoice, again: WorkerPc)
    requires !p.Level? && !p.Exited? && again.Level?
    requires p.Errors? ==> p.outcome in {Unavailable, EncodeFailed}
    ensures var h := ProcessNext(p, ch, again);
            (h.p.Errors? ==> h.p.outcome in {Unavailable, EncodeFailed})
            && (h.out.Some? ==> h.out.value.1 != ShuttingDown)
  {
  }

  lemma WorkerSays(s: State, w: nat, ch: WorkerChoice, s': State)
    requires Errands(s.workers) && WorkerStep(s, w, ch, s')
    ensures Errands(s'.workers)
    ensures s'.box == s.box || exists r, o :: o != ShuttingDown && s'.box == Retire(s.box, r, o)
  {
    hide ProcessNext;
    var p := s.workers[w];
    if !p.Level? {
      ProcessErrand(p, ch, Level(0, Lengths(s.chans.sent)));
      var h := ProcessNext(p, ch, Level(0, Lengths(s.chans.sent)));
      if h.out.Some? { assert s'.box == Retire(s.box, h.out.value.0, h.out.value.1); }
    }
  }

  lemma AccountedWorker(s: State, w: nat, ch: WorkerChoice, s': State, x: Request)
    requires Errands(s.workers) && Accounted(s, x) && WorkerStep(s, w, ch, s')
    ensures Accounted(s', x)
  {
    WorkerSays(s, w, ch, s');
    WorkerFrame(s, w, ch, s');
    hide WorkerStep, Notices, Retire;
    if s'.box != s.box {
      var r, o :| o != ShuttingDown && s'.box == Retire(s.box, r, o);
      ToldMore(s.box, r, o, x);
    }
  }

  // ----- Every step -----

  lemma AccountedStep(c: Config, s: State, a: Action, s': State, x: Request)
    requires Shape(c, s) && Control(s) && Errands(s.workers) && Accounted(s, x) && Step(c, s, a, s')
    ensures Accounted(s', x)
  {
    hide BatcherStep, SubmitterStep, DrainerStep, WorkerStep, StopperStep, RunStep, Accounted;
    match a
    case Submitter(r) =>
      SubmitterFrame(c, s, r, s');
      AccountedFrame(s, s', x);
    case Batcher(ch) =>
      if RunStep(c, s, ch, s') { AccountedRun(c, s, ch, s', x); } else { AccountedForm(c, s, ch, s', x); }
    case DrainerTurn(i) => AccountedDrainer(s, i, s', x);
    case StopperTurn(i) => AccountedStopper(s, i, s', x);
    case WorkerTurn(w, ch) => AccountedWorker(s, w, ch, s', x);
    case _ => AccountedFrame(s, s', x);
  }

  lemma AccountedStopper(s: State, i: nat, s': State, x: Request)
    requires Control(s) && Accounted(s, x) && StopperStep(s, i, s')
    ensures Accounted(s', x)
  {
    hide Accounted;
    assert StopperOk(s, i);
    if s'.drains != s.drains { AccountedBegin(s, i + 1, s', x); }
    else {
      assert !BeginSweep(s, i + 1, s'.drains, s'.logs);
      AccountedFrame(s, s', x);
    }
  }

  lemma ErrandsStep(c: Config, s: State, a: Action, s': State)
    requires Errands(s.workers) && Step(c, s, a, s')
    ensures Errands(s'.workers)
  {
    hide BatcherStep, SubmitterStep, DrainerStep, WorkerStep, StopperStep, RunStep;
    match a
    case Submitter(r) => SubmitterFrame(c, s, r, s');
    case Batcher(ch) => if RunStep(c, s, ch, s') { RunFrame(c, s, ch, s'); } else { FormMoves(c, s, ch, s'); }
    case DrainerTurn(i) => DrainMoves(s, i, s');
    case StopperTurn(i) => StopperWorkers(s, i, s');
    case WorkerTurn(w, ch) => WorkerSays(s, w, ch, s');
    case _ =>
  }

  lemma StopperWorkers(s: State, i: nat, s': State)
    requires StopperStep(s, i, s')
    ensures s'.workers == s.workers
  {
  }

  lemma AccountsStep(c: Config, s: State, a: Action, s': State)
    requires Shape(c, s) && Control(s) && Accounts(s) && Step(c, s, a, s')
    ensures Accounts(s')
  {
    hide Step, Shape, Control, Errands, Accounted;
    ErrandsStep(c, s, a, s');
    forall x
      ensures Accounted(s', x)
    {
      assert Accounted(s, x);
      AccountedStep(c, s, a, s', x);
    }
  }

  lemma {:induction false} ToldIn(retired: seq<(Request, Outcome)>, x: Request)
    ensures Notices(retired, x) > 0 <==> (x, ShuttingDown) in retired
  {
    if retired != [] {
      var n := |retired| - 1;
      ToldIn(retired[..n], x);
      assert retired == retired[..n] + [retired[n]];
      CountIn(Notice(retired[n]), x);
    }
  }
}
