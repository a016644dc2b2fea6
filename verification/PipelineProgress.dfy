/**
 Shutdown cannot get stuck: once the stop signal is given somebody can always move towards the end, and one DrainAll
 takes no more turns than there are sub-queues and requests to receive.
 */
module PipelineProgress {
  import opened Models
  import opened Pipeline
  import opened PipelineControl
  import opened PipelineFlow
  import opened PipelineWake
  import opened PipelineOrder

  // ----- Who must move -----

  predicate Writing(p: DrainPc) { p.Flagging? || p.Closing? }

  /** Somebody is inside closeOnce, or holds the write lock. */
  ghost predicate SomeCloser(drains: seq<Drainer>) {
    exists i :: 0 <= i < |drains| && InClose(drains[i].pc)
  }

  ghost predicate SomeWriter(drains: seq<Drainer>) {
    exists i :: 0 <= i < |drains| && Writing(drains[i].pc)
  }

  ghost predicate Busy(s: State) {
    && (s.pc.Draining? ==> |s.drains| > 0 && !s.drains[0].pc.Off?)
    && (s.gate.once == Running ==> SomeCloser(s.drains))
    && (s.gate.writer ==> SomeWriter(s.drains))
  }

  lemma BusyInit(c: Config, s: State)
    requires Init(s)
    ensures Busy(s)
  {
  }

  /** One position changes, and no closer or writer is lost. */
  lemma BusyUpdate(drains: seq<Drainer>, i: nat, d: Drainer)
    requires i < |drains|
    ensures SomeCloser(drains) && (InClose(drains[i].pc) ==> InClose(d.pc)) ==> SomeCloser(drains[i := d])
    ensures SomeWriter(drains) && (Writing(drains[i].pc) ==> Writing(d.pc)) ==> SomeWriter(drains[i := d])
    ensures InClose(d.pc) ==> SomeCloser(drains[i := d])
    ensures Writing(d.pc) ==> SomeWriter(drains[i := d])
  {
    var drains' := drains[i := d];
    assert drains'[i] == d;
    if SomeCloser(drains) {
      var j :| 0 <= j < |drains| && InClose(drains[j].pc);
      if j != i { assert drains'[j] == drains[j]; }
    }
    if SomeWriter(drains) {
      var j :| 0 <= j < |drains| && Writing(drains[j].pc);
      if j != i { assert drains'[j] == drains[j]; }
    }
  }

  lemma BusyBegin(s: State, i: nat, s': State)
    requires Busy(s) && i < |s.drains| && s.drains[i].pc.Off? && BeginSweep(s, i, s'.drains, s'.logs)
    requires s'.gate == s.gate && (s'.pc.Draining? ==> i == 0 || s.pc.Draining?)
    ensures Busy(s')
  {
    hide SomeCloser, SomeWriter;
    BusyUpdate(s.drains, i, s'.drains[i]);
  }

  lemma BusyDrainer(s: State, i: nat, s': State)
    requires Busy(s) && DrainerStep(s, i, s')
    ensures Busy(s')
  {
    DrainMoves(s, i, s');
    DrainerGate(s, i, s');
    hide DrainerStep, SomeCloser, SomeWriter;
    BusyUpdate(s.drains, i, s'.drains[i]);
  }

  /** How a drainer's step and the gate go together. */
  lemma DrainerGate(s: State, i: nat, s': State)
    requires DrainerStep(s, i, s')
    ensures i < |s.drains| == |s'.drains| && !s.drains[i].pc.Off? && !s'.drains[i].pc.Off?
    ensures s'.gate.once == Running ==>
      InClose(s'.drains[i].pc) || (s.gate.once == Running && !InClose(s.drains[i].pc))
    ensures s'.gate.writer ==>
      Writing(s'.drains[i].pc) || (s.gate.writer && !Writing(s.drains[i].pc))
  {
  }

  lemma BusyBatcher(c: Config, s: State, ch: Choice, s': State)
    requires Control(s) && Busy(s) && BatcherStep(c, s, ch, s')
    ensures Busy(s')
  {
    hide FormNext, AccumulateNext, SomeCloser, SomeWriter;
    if RunStep(c, s, ch, s') {
      RunFrame(c, s, ch, s');
      if s'.drains != s.drains { BusyGiveUp(s, s'); } else { StaysDraining(c, s, ch, s'); }
    } else {
      FormMoves(c, s, ch, s');
      FormsOn(c, s.m, s.gate.shut, StopSignal(s.flags), ch, s.pc);
    }
  }

  lemma BusyGiveUp(s: State, s': State)
    requires Control(s) && Busy(s) && GiveUpStep(s, s') && (s.pc.Top? || s.pc == Failing([]))
    ensures Busy(s')
  {
    BusyBegin(s, 0, s');
  }

  lemma StaysDraining(c: Config, s: State, ch: Choice, s': State)
    requires Control(s) && RunStep(c, s, ch, s') && s'.drains == s.drains
    ensures s'.pc.Draining? ==> |s.drains| > 0 && !s.drains[0].pc.Off?
  {
  }

  lemma BusyStopper(s: State, i: nat, s': State)
    requires Control(s) && Busy(s) && StopperStep(s, i, s')
    ensures Busy(s')
  {
    hide SomeCloser, SomeWriter;
    assert StopperOk(s, i);
    if s'.drains != s.drains { BusyBegin(s, i + 1, s'); }
    else { assert !BeginSweep(s, i + 1, s'.drains, s'.logs); }
  }

  lemma BusyStep(c: Config, s: State, a: Action, s': State)
    requires Control(s) && Busy(s) && Step(c, s, a, s')
    ensures Busy(s')
  {
    hide BatcherStep, SubmitterStep, DrainerStep, WorkerStep, StopperStep, SomeCloser, SomeWriter;
    match a
    case Batcher(ch) => BusyBatcher(c, s, ch, s');
    case DrainerTurn(i) => BusyDrainer(s, i, s');
    case StopperTurn(i) => BusyStopper(s, i, s');
    case Submitter(r) => SubmitterFrame(c, s, r, s');
    case WorkerTurn(w, ch) => WorkerFrame(s, w, ch, s');
    case _ =>
  }

  // ----- Somebody can -----

  /** A turn of the batcher, of a drainer, or of a submitter that holds the read lock. */
  predicate Pushes(s: State, a: Action) {
    a.Batcher? || a.DrainerTurn? || (a.Submitter? && a.r in s.subs && Holding(s.subs[a.r]))
  }

  ghost predicate CanMove(c: Config, s: State) {
    exists a, s' :: Pushes(s, a) && Step(c, s, a, s') && s' != s
  }

  lemma SubmitterCan(c: Config, s: State, r: Request)
    requires c.Valid() && Lock(s) && r in s.subs && Holding(s.subs[r])
    ensures CanMove(c, s)
  {
    SubmitterTurn(c, s, r);
    hide Step;
    var s' :| Step(c, s, Submitter(r), s') && s' != s;
    assert Pushes(s, Submitter(r));
  }

  lemma SubmitterTurn(c: Config, s: State, r: Request)
    requires Lock(s) && r in s.subs && Holding(s.subs[r])
    ensures exists s' :: Step(c, s, Submitter(r), s') && s' != s
  {
    var k := c.route(r);
    var s' :=
      match s.subs[r]
      case Locked => s.(subs := s.subs[r := if s.gate.closed then Leaving else Checked])
      case Checked =>
        if |s.m.queues[k]| < c.perQueue then
          s.(m := Push(s.m, k, r), subs := s.subs[r := Pushed], logs := s.logs.(accepted := s.logs.accepted + [r]))
        else s.(subs := s.subs[r := Leaving])
      case Pushed => s.(m := s.m.(depth := s.m.depth + 1), subs := s.subs[r := Added])
      case Added => s.(m := s.m.(token := true), subs := s.subs[r := Leaving])
      case _ => s.(subs := s.subs - {r});
    assert SubmitterStep(c, s, r, s');
    assert s'.subs != s.subs by { assert r !in s'.subs || s'.subs[r] != s.subs[r]; }
    assert Step(c, s, Submitter(r), s');
  }

  lemma CloserCan(c: Config, s: State, i: nat)
    requires c.Valid() && Lock(s) && Busy(s) && i < |s.drains| && InClose(s.drains[i].pc)
    ensures CanMove(c, s)
  {
    hide SubsOk, GateOk, ClosersOk, ChansClosedOk, CanMove;
    if s.drains[i].pc.LockWait? && s.gate.writer {
      var j :| 0 <= j < |s.drains| && Writing(s.drains[j].pc);
      NextCan(c, s, j);
    } else if r :| s.drains[i].pc.LockWait? && r in s.subs && Holding(s.subs[r]) {
      SubmitterCan(c, s, r);
    } else {
      NextCan(c, s, i);
    }
  }

  lemma NextCan(c: Config, s: State, i: nat)
    requires i < |s.drains| && !s.drains[i].pc.Sweep? && !s.drains[i].pc.Notify?
    requires CloseNext(s.gate, forall r :: r in s.subs ==> !Holding(s.subs[r]), s.drains[i].pc).Some?
    ensures CanMove(c, s)
  {
    var d := s.drains[i];
    var n := CloseNext(s.gate, forall r :: r in s.subs ==> !Holding(s.subs[r]), d.pc);
    var s' := s.(gate := n.value.0, drains := s.drains[i := d.(pc := n.value.1)]);
    assert n.value.1 != d.pc;
    assert s'.drains[i] != s.drains[i];
    assert Pushes(s, DrainerTurn(i)) && Step(c, s, DrainerTurn(i), s');
  }

  lemma SweeperCan(c: Config, s: State, i: nat)
    requires i < |s.drains| && (s.drains[i].pc.Sweep? || s.drains[i].pc.Notify?)
    ensures CanMove(c, s)
  {
    var d := s.drains[i];
    var s' :=
      match d.pc
      case Sweep(k, out) =>
        if k >= CELLS then
          s.(m := s.m.(depth := 0), logs := s.logs.(zeroed := true), drains := s.drains[i := d.(pc := Notify(out))])
        else if s.m.queues[k] != [] then
          s.(m := Pop(s.m, k), logs := s.logs.(received := s.logs.received + [s.m.queues[k][0]]),
             drains := s.drains[i := d.(pc := Sweep(k, out + [s.m.queues[k][0]]))])
        else s.(drains := s.drains[i := d.(pc := Sweep(k + 1, out), passed := d.passed + [|s.logs.accepted|])])
      case Notify(rest) =>
        if rest == [] then s.(drains := s.drains[i := d.(pc := CloseCall)])
        else s.(box := Retire(s.box, rest[0], ShuttingDown), logs := s.logs.(notified := s.logs.notified + [rest[0]]),
                drains := s.drains[i := d.(pc := Notify(rest[1..]))])
      case _ => s;
    assert SweepStep(s, i, d, s');
    assert s'.drains[i].pc != d.pc;
    assert Pushes(s, DrainerTurn(i)) && Step(c, s, DrainerTurn(i), s');
  }

  /** A drainer that has begun and not finished can move, or somebody it waits for can. */
  lemma DrainerCan(c: Config, s: State, i: nat)
    requires c.Valid() && Lock(s) && Busy(s) && i < |s.drains| && !s.drains[i].pc.Off? && !s.drains[i].pc.Finished?
    ensures CanMove(c, s)
  {
    hide SubsOk, GateOk, ChansClosedOk, CanMove;
    var p := s.drains[i].pc;
    if p.Sweep? || p.Notify? {
      SweeperCan(c, s, i);
    } else if InClose(p) {
      CloserCan(c, s, i);
    } else if s.gate.once == Running {
      var j :| 0 <= j < |s.drains| && InClose(s.drains[j].pc);
      CloserCan(c, s, j);
    } else {
      NextCan(c, s, i);
    }
  }

  lemma BatchCan(c: Config, s: State)
    requires Control(s) && StopSignal(s.flags) && (s.pc.Wait? || InBatch(s.pc))
    ensures CanMove(c, s)
  {
    var ch := if s.pc.Wait? || s.pc.AccPark? then Abort else Go;
    var f := if Forming(s.pc) then FormNext(c, s.m, s.gate.shut, true, ch, s.pc)
             else AccumulateNext(c, s.m, s.gate.shut, true, ch, s.pc);
    assert f.Formed? && f.pc != s.pc;
    var s' := s.(m := f.m, logs := s.logs.(received := s.logs.received + f.got), pc := f.pc);
    hide FormNext, AccumulateNext;
    assert BatcherStep(c, s, ch, s');
    assert Pushes(s, Batcher(ch)) && Step(c, s, Batcher(ch), s');
  }

  lemma GiveUpCan(c: Config, s: State)
    requires Control(s) && StopSignal(s.flags) && (s.pc.Top? || s.pc == Failing([]))
    ensures CanMove(c, s)
  {
    var s' := s.(drains := s.drains[0 := Drainer(Sweep(0, []), s.m.queues, [])],
                 logs := if AllOff(s) then s.logs.(drainMark := |s.logs.received|) else s.logs, pc := Draining);
    assert GiveUpStep(s, s') && RunStep(c, s, Go, s');
    assert Pushes(s, Batcher(Go)) && Step(c, s, Batcher(Go), s');
  }

  /** With the stop signal given, until the batcher's goroutine has closed the channels, somebody can move. */
  lemma SomebodyCan(c: Config, s: State)
    requires c.Valid() && Control(s) && Lock(s) && Busy(s) && StopSignal(s.flags) && !s.pc.Gone?
    ensures CanMove(c, s)
  {
    hide StoppersOk, SubsOk, GateOk, ClosersOk, CanMove;
    match s.pc
    case NotStarted => RunCan(c, s, Go, s.(flags := s.flags.(started := true), pc := Top));
    case Top => GiveUpCan(c, s);
    case Dispatch(k, reqs) => RunCan(c, s, Abort, s.(pc := Failing(reqs)));
    case Failing(rest) =>
      if rest == [] { GiveUpCan(c, s); }
      else { RunCan(c, s, Go, s.(box := Retire(s.box, rest[0], ShuttingDown), pc := Failing(rest[1..]))); }
    case Draining =>
      if s.drains[0].pc.Finished? { RunCan(c, s, Go, s.(pc := Returned)); } else { DrainerCan(c, s, 0); }
    case Returned => RunCan(c, s, Go, s.(pc := ClosingChans(0)));
    case ClosingChans(i) =>
      RunCan(c, s, Go, if i >= PRIORITIES then s.(pc := Gone)
                       else s.(chans := s.chans.(closed := s.chans.closed + {i}), pc := ClosingChans(i + 1)));
    case _ => BatchCan(c, s);
  }

  lemma RunCan(c: Config, s: State, ch: Choice, s': State)
    requires RunStep(c, s, ch, s') && s'.pc != s.pc
    ensures CanMove(c, s)
  {
    hide RunStep, FormNext, AccumulateNext;
    assert BatcherStep(c, s, ch, s');
    assert Pushes(s, Batcher(ch)) && Step(c, s, Batcher(ch), s');
  }

  // ----- One DrainAll -----

  /** What a DrainAll has behind it: sub-queues left and requests received. */
  function Behind(p: DrainPc): nat {
    match p
    case Sweep(k, out) => k + |out|
    case _ => 0
  }

  /** Each turn of a DrainAll leaves a sub-queue or receives a request; nobody else moves it. */
  lemma SweepTurn(c: Config, s: State, a: Action, s': State, d: nat)
    requires Control(s) && Step(c, s, a, s') && d < |s.drains| == |s'.drains|
    requires s.drains[d].pc.Sweep? && s'.drains[d].pc.Sweep?
    ensures Behind(s'.drains[d].pc) == Behind(s.drains[d].pc) + if a == DrainerTurn(d) then 1 else 0
    ensures |s'.drains[d].pc.out| - |s.drains[d].pc.out| <= |s'.logs.received| - |s.logs.received|
  {
    hide BatcherStep, SubmitterStep, DrainerStep, WorkerStep, StopperStep;
    match a
    case Batcher(ch) => BatcherElsewhere(c, s, ch, s', d);
    case DrainerTurn(i) => DrainerTurns(s, i, s', d);
    case StopperTurn(i) => StopperElsewhere(s, i, s', d);
    case Submitter(r) => SubmitterFrame(c, s, r, s');
    case WorkerTurn(w, ch) => WorkerFrame(s, w, ch, s');
    case _ =>
  }

  lemma DrainerTurns(s: State, i: nat, s': State, d: nat)
    requires DrainerStep(s, i, s') && d < |s.drains| == |s'.drains|
    requires s.drains[d].pc.Sweep? && s'.drains[d].pc.Sweep?
    ensures Behind(s'.drains[d].pc) == Behind(s.drains[d].pc) + if i == d then 1 else 0
    ensures |s'.drains[d].pc.out| - |s.drains[d].pc.out| <= |s'.logs.received| - |s.logs.received|
  {
  }

  lemma BatcherElsewhere(c: Config, s: State, ch: Choice, s': State, d: nat)
    requires Control(s) && BatcherStep(c, s, ch, s') && d < |s.drains| == |s'.drains| && s.drains[d].pc.Sweep?
    ensures s'.drains[d] == s.drains[d] && |s.logs.received| <= |s'.logs.received|
  {
    hide FormNext, AccumulateNext;
    if RunStep(c, s, ch, s') {
      RunFrame(c, s, ch, s');
      hide RunStep;
      if s'.drains != s.drains { BeginsElsewhere(s, 0, s', d); }
    } else {
      FormMoves(c, s, ch, s');
    }
  }

  lemma BeginsElsewhere(s: State, i: nat, s': State, d: nat)
    requires i < |s.drains| && s.drains[i].pc.Off? && BeginSweep(s, i, s'.drains, s'.logs)
    requires d < |s.drains| && s.drains[d].pc.Sweep?
    ensures s'.drains[d] == s.drains[d] && s'.logs.received == s.logs.received
  {
  }

  lemma StopperElsewhere(s: State, i: nat, s': State, d: nat)
    requires Control(s) && StopperStep(s, i, s') && d < |s.drains| && s.drains[d].pc.Sweep?
    ensures |s'.drains| == |s.drains| && s'.drains[d] == s.drains[d] && s'.logs.received == s.logs.received
  {
    assert StopperOk(s, i);
  }
}
