/**
 Where requests go: sub-queues are FIFO, batches leave in acceptance order, every accepted request is in
 exactly one place, and at most one send is attempted on its result channel.
 */
module PipelineFlow {
  import opened Models
  import opened Ordering
  import opened Pipeline
  import opened PipelineControl

  // ----- What a formation step takes out of the queues -----

  ghost predicate Popped(m: Matrix, k: Rank, f: Formed)
    requires f.Formed?
  {
    m.queues[k] != [] && f.m.queues == m.queues[k := m.queues[k][1..]] && f.got == [m.queues[k][0]]
  }

  ghost predicate Took(m: Matrix, pc: Pc, f: Formed) {
    f.Formed? ==>
      || (f.got == [] && f.m.queues == m.queues)
      || (pc.Recv? && Popped(m, pc.k, f))
      || (pc.AccRecv? && Popped(m, pc.k, f))
  }

  lemma FormTakes(c: Config, m: Matrix, shut: set<nat>, stop: bool, ch: Choice, pc: Pc)
    requires Forming(pc)
    ensures var f := FormNext(c, m, shut, stop, ch, pc);
            Took(m, pc, f) && (f.Formed? ==> Hand(f.pc) == Hand(pc) + f.got)
  {
  }

  lemma AccumulateTakes(c: Config, m: Matrix, shut: set<nat>, stop: bool, ch: Choice, pc: Pc)
    requires Accumulating(pc)
    ensures var f := AccumulateNext(c, m, shut, stop, ch, pc);
            Took(m, pc, f) && (f.Formed? ==> Hand(f.pc) == Hand(pc) + f.got)
  {
  }

  /** A formation step seen from the queues: at most one request moves from the head of one sub-queue to the hand. */
  lemma FormMoves(c: Config, s: State, ch: Choice, s': State)
    requires BatcherStep(c, s, ch, s') && !RunStep(c, s, ch, s')
    ensures s' == s.(m := s'.m, logs := s'.logs, pc := s'.pc)
    ensures
      || (s'.m.queues == s.m.queues && s'.logs == s.logs && Hand(s'.pc) == Hand(s.pc))
      || ((s.pc.Recv? || s.pc.AccRecv?) && s.m.queues[s.pc.k] != []
          && var r := s.m.queues[s.pc.k][0];
             s'.m.queues == s.m.queues[s.pc.k := s.m.queues[s.pc.k][1..]]
             && s'.logs == s.logs.(received := s.logs.received + [r]) && Hand(s'.pc) == Hand(s.pc) + [r])
  {
    hide FormNext, AccumulateNext, RunStep;
    if Forming(s.pc) { FormTakes(c, s.m, s.gate.shut, StopSignal(s.flags), ch, s.pc); }
    else { AccumulateTakes(c, s.m, s.gate.shut, StopSignal(s.flags), ch, s.pc); }
    assert s.logs.received + [] == s.logs.received;
  }

  // ----- FIFO -----

  /** Per sub-queue, what was accepted is what was received followed by what is queued. */
  ghost predicate Fifo(c: Config, q: Queues, accepted: seq<Request>, received: seq<Request>) {
    forall k: Rank :: Select(c.route, accepted, k) == Select(c.route, received, k) + q[k]
  }

  lemma FifoPop(c: Config, q: Queues, accepted: seq<Request>, received: seq<Request>, k: Rank)
    requires Fifo(c, q, accepted, received) && q[k] != [] && c.route(q[k][0]) == k
    ensures Fifo(c, q[k := q[k][1..]], accepted, received + [q[k][0]])
  {
    hide Select;
    SelectSnoc(c.route, received, q[k][0]);
    assert q[k] == [q[k][0]] + q[k][1..];
    forall j: Rank
      ensures Select(c.route, accepted, j) == Select(c.route, received + [q[k][0]], j) + q[k := q[k][1..]][j]
    {
      if j == k {
        var got := Select(c.route, received, k);
        assert got + q[k] == (got + [q[k][0]]) + q[k][1..];
      }
    }
  }

  lemma FifoPush(c: Config, q: Queues, accepted: seq<Request>, received: seq<Request>, r: Request)
    requires Fifo(c, q, accepted, received)
    ensures Fifo(c, q[c.route(r) := q[c.route(r)] + [r]], accepted + [r], received)
  {
    SelectSnoc(c.route, accepted, r);
  }

  ghost predicate FifoOk(c: Config, s: State) {
    Fifo(c, s.m.queues, s.logs.accepted, s.logs.received)
  }

  lemma FifoInit(c: Config, s: State)
    requires Init(s)
    ensures FifoOk(c, s)
  {
  }

  lemma HeadKey(c: Config, s: State, k: Rank)
    requires Shape(c, s) && s.m.queues[k] != []
    ensures c.route(s.m.queues[k][0]) == k
  {
    assert OfKey(c, k, s.m.queues[k]);
    assert s.m.queues[k][0] in s.m.queues[k];
  }

  lemma FifoBatcher(c: Config, s: State, ch: Choice, s': State)
    requires Shape(c, s) && FifoOk(c, s) && BatcherStep(c, s, ch, s')
    ensures FifoOk(c, s')
  {
    hide RunStep, FormNext, AccumulateNext;
    if RunStep(c, s, ch, s') { RunFrame(c, s, ch, s'); }
    else {
      FormMoves(c, s, ch, s');
      if s'.m.queues != s.m.queues {
        HeadKey(c, s, s.pc.k);
        FifoPop(c, s.m.queues, s.logs.accepted, s.logs.received, s.pc.k);
      }
    }
  }

  /** What a drainer's step does to queues and logs. */
  lemma DrainMoves(s: State, i: nat, s': State)
    requires DrainerStep(s, i, s')
    ensures s' == s.(m := s'.m, gate := s'.gate, drains := s'.drains, logs := s'.logs, box := s'.box)
    ensures s'.drains == s.drains[i := s'.drains[i]]
    ensures
      || (s'.m.queues == s.m.queues && s'.logs.received == s.logs.received)
      || (var p := s.drains[i].pc;
          p.Sweep? && p.k < CELLS && s.m.queues[p.k] != []
          && s'.m.queues == s.m.queues[p.k := s.m.queues[p.k][1..]]
          && s'.logs == s.logs.(received := s.logs.received + [s.m.queues[p.k][0]])
          && s'.drains[i] == s.drains[i].(pc := Sweep(p.k, p.out + [s.m.queues[p.k][0]])) && s'.box == s.box)
    ensures s'.logs.accepted == s.logs.accepted && s'.logs.seen == s.logs.seen
    ensures s'.logs.dispatched == s.logs.dispatched
    ensures s'.logs.drainMark == s.logs.drainMark
  {
  }

  lemma FifoDrainer(c: Config, s: State, i: nat, s': State)
    requires Shape(c, s) && FifoOk(c, s) && DrainerStep(s, i, s')
    ensures FifoOk(c, s')
  {
    DrainMoves(s, i, s');
    hide DrainerStep;
    if s'.m.queues != s.m.queues {
      HeadKey(c, s, s.drains[i].pc.k);
      FifoPop(c, s.m.queues, s.logs.accepted, s.logs.received, s.drains[i].pc.k);
    }
  }

  /** What a submitter's step does to queues and logs. */
  lemma SubmitterMoves(c: Config, s: State, r: Request, s': State)
    requires SubmitterStep(c, s, r, s')
    ensures r in s.subs
    ensures
      || (s'.m.queues == s.m.queues && s'.logs == s.logs)
      || (s.subs[r] == Checked && s'.subs == s.subs[r := Pushed] && s'.m.queues == Push(s.m, c.route(r), r).queues
          && s'.logs == s.logs.(accepted := s.logs.accepted + [r]))
  {
  }

  lemma FifoStep(c: Config, s: State, a: Action, s': State)
    requires Shape(c, s) && FifoOk(c, s) && Step(c, s, a, s')
    ensures FifoOk(c, s')
  {
    hide BatcherStep, SubmitterStep, DrainerStep, WorkerStep;
    match a
    case Submitter(r) =>
      SubmitterMoves(c, s, r, s');
      if s'.logs != s.logs { FifoPush(c, s.m.queues, s.logs.accepted, s.logs.received, r); }
    case Batcher(ch) => FifoBatcher(c, s, ch, s');
    case DrainerTurn(i) => FifoDrainer(c, s, i, s');
    case WorkerTurn(w, ch) => WorkerFrame(s, w, ch, s');
    case _ =>
  }

  // ----- From received to dispatched -----

  /** The requests of the batches of sub-queue k, in order. */
  function BatchesOf(batches: seq<Batch>, k: Rank): seq<Request> {
    if batches == [] then []
    else BatchesOf(batches[..|batches| - 1], k)
         + (if batches[|batches| - 1].key == k then batches[|batches| - 1].requests else [])
  }

  ghost predicate Sent(c: Config, sent: Channels, dispatched: seq<Request>) {
    forall k: Rank :: BatchesOf(sent[ClassOf(k)], k) == Select(c.route, dispatched, k)
  }

  lemma SentMore(c: Config, sent: Channels, dispatched: seq<Request>, k: Rank, reqs: seq<Request>)
    requires Sent(c, sent, dispatched) && OfKey(c, k, reqs)
    ensures Sent(c, sent[ClassOf(k) := sent[ClassOf(k)] + [Batch(k, reqs)]], dispatched + reqs)
  {
    var cl := ClassOf(k);
    var more := sent[cl] + [Batch(k, reqs)];
    assert more[..|more| - 1] == sent[cl];
    forall j: Rank
      ensures BatchesOf(sent[cl := more][ClassOf(j)], j) == Select(c.route, dispatched + reqs, j)
    {
      SelectAppend(c.route, dispatched, reqs, j);
      SelectAll(c.route, reqs, k);
    }
  }

  /** Requests are dispatched in the order received, and until some goroutine drains the batcher holds the rest. */
  ghost predicate Flow(c: Config, s: State) {
    && s.logs.dispatched <= s.logs.received
    && (AllOff(s) && !s.pc.Failing? ==> s.logs.received == s.logs.dispatched + Hand(s.pc))
    && Sent(c, s.chans.sent, s.logs.dispatched)
  }

  lemma FlowInit(c: Config, s: State)
    requires Init(s)
    ensures Flow(c, s)
  {
  }

  lemma FlowBatcher(c: Config, s: State, ch: Choice, s': State)
    requires Shape(c, s) && Control(s) && Flow(c, s) && BatcherStep(c, s, ch, s')
    ensures Flow(c, s')
  {
    hide RunStep, FormNext, AccumulateNext;
    if RunStep(c, s, ch, s') { FlowRun(c, s, ch, s'); }
    else { FormMoves(c, s, ch, s'); }
  }

  lemma FlowDispatch(c: Config, s: State, k: Rank, reqs: seq<Request>, ch: Choice, s': State)
    requires Shape(c, s) && Control(s) && Flow(c, s) && s.pc == Dispatch(k, reqs) && DispatchStep(c, s, k, reqs, ch, s')
    ensures Flow(c, s')
  {
    if s'.logs != s.logs {
      SentMore(c, s.chans.sent, s.logs.dispatched, k, reqs);
    }
  }

  lemma FlowRun(c: Config, s: State, ch: Choice, s': State)
    requires Shape(c, s) && Control(s) && Flow(c, s) && RunStep(c, s, ch, s')
    ensures Flow(c, s')
  {
    if s.pc.Dispatch? { FlowDispatch(c, s, s.pc.k, s.pc.reqs, ch, s'); }
    else {
      RunFrame(c, s, ch, s');
      RunQuiet(c, s, ch, s');
      if s'.drains != s.drains { assert !s'.drains[0].pc.Off?; }
      else if s.pc.Failing? { StaysFailing(c, s, ch, s'); }
      hide RunStep, Sent;
      FlowQuiet(c, s, s');
    }
  }

  lemma StaysFailing(c: Config, s: State, ch: Choice, s': State)
    requires Control(s) && RunStep(c, s, ch, s') && s'.drains == s.drains && s.pc.Failing?
    ensures s'.pc.Failing?
  {
    assert s.drains[0].pc.Off?;
  }

  lemma FlowQuiet(c: Config, s: State, s': State)
    requires Flow(c, s) && s'.chans.sent == s.chans.sent && s'.logs.dispatched == s.logs.dispatched
    requires s'.logs.received == s.logs.received
    requires AllOff(s') ==> AllOff(s) && (s'.pc.Failing? || (!s.pc.Failing? && Hand(s'.pc) == Hand(s.pc)))
    ensures Flow(c, s')
  {
  }

  lemma FlowStep(c: Config, s: State, a: Action, s': State)
    requires Shape(c, s) && Control(s) && Flow(c, s) && Step(c, s, a, s')
    ensures Flow(c, s')
  {
    hide BatcherStep, SubmitterStep, DrainerStep, WorkerStep, StopperStep, Sent;
    match a
    case Submitter(r) => SubmitterFrame(c, s, r, s');
    case Batcher(ch) => FlowBatcher(c, s, ch, s');
    case DrainerTurn(i) => FlowDrainer(c, s, i, s');
    case StopperTurn(i) => FlowStopper(c, s, i, s');
    case WorkerTurn(w, ch) => WorkerFrame(s, w, ch, s');
    case _ =>
  }

  lemma FlowDrainer(c: Config, s: State, i: nat, s': State)
    requires Flow(c, s) && DrainerStep(s, i, s')
    ensures Flow(c, s')
  {
    DrainMoves(s, i, s');
    assert !s.drains[i].pc.Off? && !s'.drains[i].pc.Off?;
    hide DrainerStep;
  }

  lemma FlowStopper(c: Config, s: State, i: nat, s': State)
    requires Flow(c, s) && StopperStep(s, i, s')
    ensures Flow(c, s')
  {
    if s'.drains != s.drains { assert !s'.drains[i + 1].pc.Off?; }
  }
}
