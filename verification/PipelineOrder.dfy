/**
 Order under concurrency: what a drain scan and the preemption check have seen, what a worker's nested
 select has seen, and why accumulation ends even if its timer never fires.
 */
module PipelineOrder {
  import opened Models
  import opened Pipeline
  import opened PipelineControl
  import opened PipelineFlow
  import opened PipelineWake

  // ----- Scans: the snapshots against the live queues -----

  /** Every sub-queue is as it was, with later submissions behind. */
  ghost predicate Grown(q: Queues, q': Queues) {
    forall k: Rank :: q[k] <= q'[k]
  }

  /** Sub-queues already scanned were empty when the scan began; those still ahead have only grown since. */
  ghost predicate SnapAt(q: Queues, pc: Pc) {
    match pc
    case Scan(next, snap) =>
      forall j: Rank :: if j < next then snap[j] == [] else snap[j] <= q[j]
    case Recv(k, got, snap) =>
      forall j: Rank :: if j < k then snap[j] == [] else if j == k then snap[j] <= got + q[j] else snap[j] <= q[j]
    case Settle(k, got, snap) =>
      snap[k] <= got + q[k] && forall j: Rank :: j < k ==> snap[j] == []
    case AccRecv(k, _, _, snap) => HigherSeen(q, k, 0, snap)
    case AccSettle(k, _, _, snap) => HigherSeen(q, k, 0, snap)
    case AccFlush(k, _, snap) => HigherSeen(q, k, 0, snap)
    case AccHigher(k, _, j, snap) => HigherSeen(q, k, j, snap)
    case AccPark(k, _, snap) => HigherSeen(q, k, HigherCount(k), snap)
    case _ => true
  }

  ghost predicate HigherSeen(q: Queues, k: Rank, n: nat, snap: Queues) {
    forall i: nat :: i < HigherCount(k) ==>
      if i < n then snap[HigherCell(k, i)] == [] else snap[HigherCell(k, i)] <= q[HigherCell(k, i)]
  }

  ghost predicate Snap(s: State) {
    AllOff(s) ==> SnapAt(s.m.queues, s.pc)
  }

  /** The preemption check looks at exactly the sub-queues of higher classes. */
  lemma HigherCells(k: Rank, j: Rank)
    ensures ClassOf(j) > ClassOf(k) <==> exists i: nat :: i < HigherCount(k) && HigherCell(k, i) == j
    ensures forall i: nat :: i < HigherCount(k) ==> HigherCell(k, i) < k
  {
    if ClassOf(j) > ClassOf(k) {
      var i := (k / BLOCK - 1 - j / BLOCK) * BLOCK + j % BLOCK;
      assert i / BLOCK == k / BLOCK - 1 - j / BLOCK && i % BLOCK == j % BLOCK;
      assert i < HigherCount(k) && HigherCell(k, i) == j;
    }
    forall i: nat | i < HigherCount(k)
      ensures HigherCell(k, i) < k && HigherCell(k, i) / BLOCK < k / BLOCK
    {
      assert HigherCell(k, i) / BLOCK == k / BLOCK - 1 - i / BLOCK;
    }
  }

  lemma SnapForm(c: Config, m: Matrix, shut: set<nat>, stop: bool, ch: Choice, pc: Pc)
    requires Forming(pc) && SnapAt(m.queues, pc) && shut == {}
    ensures var f := FormNext(c, m, shut, stop, ch, pc); f.Formed? ==> SnapAt(f.m.queues, f.pc)
  {
    if pc.Recv? { SnapRecv(c, m, shut, stop, ch, pc); }
  }

  lemma SnapRecv(c: Config, m: Matrix, shut: set<nat>, stop: bool, ch: Choice, pc: Pc)
    requires pc.Recv? && SnapAt(m.queues, pc) && shut == {}
    ensures var f := FormNext(c, m, shut, stop, ch, pc); f.Formed? ==> SnapAt(f.m.queues, f.pc)
  {
    var q := m.queues[pc.k];
    if q != [] { assert pc.got + q == pc.got + [q[0]] + q[1..]; }
  }

  lemma SnapAccumulate(c: Config, m: Matrix, shut: set<nat>, stop: bool, ch: Choice, pc: Pc)
    requires Accumulating(pc) && SnapAt(m.queues, pc) && shut == {}
    ensures var f := AccumulateNext(c, m, shut, stop, ch, pc); f.Formed? ==> SnapAt(f.m.queues, f.pc)
  {
    hide HigherCell, HigherCount;
    if pc.AccRecv? { HigherCells(pc.k, pc.k); }
  }

  lemma SnapInit(c: Config, s: State)
    requires Init(s)
    ensures Snap(s)
  {
  }

  lemma SnapBatcher(c: Config, s: State, ch: Choice, s': State)
    requires Control(s) && Snap(s) && BatcherStep(c, s, ch, s')
    ensures Snap(s')
  {
    hide FormNext, AccumulateNext, RunStep, SnapAt;
    if RunStep(c, s, ch, s') { SnapRun(c, s, ch, s'); }
    else if AllOff(s) {
      if Forming(s.pc) { SnapForm(c, s.m, s.gate.shut, StopSignal(s.flags), ch, s.pc); }
      else { SnapAccumulate(c, s.m, s.gate.shut, StopSignal(s.flags), ch, s.pc); }
    }
  }

  lemma SnapRun(c: Config, s: State, ch: Choice, s': State)
    requires RunStep(c, s, ch, s')
    ensures Snap(s')
  {
    RunProgress(c, s, ch, s');
    hide RunStep;
  }

  lemma SnapGrown(q: Queues, q': Queues, pc: Pc)
    requires SnapAt(q, pc) && Grown(q, q')
    ensures SnapAt(q', pc)
  {
    if pc.Recv? || pc.Settle? { assert pc.got + q[pc.k] <= pc.got + q'[pc.k]; }
  }

  lemma SnapStep(c: Config, s: State, a: Action, s': State)
    requires Control(s) && Snap(s) && Step(c, s, a, s')
    ensures Snap(s')
  {
    hide BatcherStep, SubmitterStep, DrainerStep, WorkerStep, StopperStep, SnapAt;
    match a
    case Submitter(r) =>
      SubmitterMoves(c, s, r, s');
      SubmitterFrame(c, s, r, s');
      if AllOff(s) { SnapGrown(s.m.queues, s'.m.queues, s.pc); }
    case Batcher(ch) => SnapBatcher(c, s, ch, s');
    case DrainerTurn(i) => DrainerOn(s, i, s');
    case StopperTurn(i) => SnapStopper(s, i, s');
    case WorkerTurn(w, ch) => WorkerFrame(s, w, ch, s');
    case _ =>
  }

  lemma SnapStopper(s: State, i: nat, s': State)
    requires Snap(s) && StopperStep(s, i, s')
    ensures Snap(s')
  {
    if s'.drains != s.drains { assert !s'.drains[i + 1].pc.Off?; }
  }

  // ----- Workers: what the nested select has seen -----

  /** At select number l, the batches of class 4 - l and up that were buffered when the iteration began are taken. */
  ghost predicate PullAt(p: WorkerPc, sent: Channels, taken: Counts) {
    p.Level? ==>
      p.l <= 3
      && (forall cl: nat :: cl < PRIORITIES ==> p.mark[cl] <= |sent[cl]|)
      && (forall cl: nat :: cl < PRIORITIES && 4 - p.l <= cl ==> p.mark[cl] <= taken[cl])
  }

  ghost predicate Pulls(s: State) {
    forall w :: 0 <= w < |s.workers| ==> PullAt(s.workers[w], s.chans.sent, s.chans.taken)
  }

  lemma PullsInit(c: Config, s: State)
    requires Init(s)
    ensures Pulls(s)
  {
  }

  lemma PullsWorker(s: State, w: nat, ch: WorkerChoice, s': State)
    requires Pulls(s) && WorkerStep(s, w, ch, s')
    ensures Pulls(s')
  {
    WorkerFrame(s, w, ch, s');
    assert PullAt(s.workers[w], s.chans.sent, s.chans.taken);
    if s.workers[w].Level? {
      assert PullStep(s, w, s.workers[w].l, s.workers[w].mark, ch, s');
      if ch.Fall? {
        forall cl: nat | cl < PRIORITIES && 4 - (s.workers[w].l + 1) <= cl
          ensures s.workers[w].mark[cl] <= s.chans.taken[cl]
        {
          assert Watched(s.workers[w].l, cl);
        }
      }
    } else {
      hide PullStep;
      assert s'.chans == s.chans;
      assert PullAt(Level(0, Lengths(s.chans.sent)), s.chans.sent, s.chans.taken);
      assert s'.workers[w].Level? ==> s'.workers[w] == Level(0, Lengths(s.chans.sent));
    }
  }

  lemma PullsBatcher(c: Config, s: State, ch: Choice, s': State)
    requires Pulls(s) && BatcherStep(c, s, ch, s')
    ensures Pulls(s')
  {
    hide FormNext, AccumulateNext;
    assert s'.workers == s.workers && s'.chans.taken == s.chans.taken;
    assert forall cl: nat :: cl < PRIORITIES ==> |s.chans.sent[cl]| <= |s'.chans.sent[cl]|;
    forall w | 0 <= w < |s'.workers|
      ensures PullAt(s'.workers[w], s'.chans.sent, s'.chans.taken)
    {
      assert PullAt(s.workers[w], s.chans.sent, s.chans.taken);
    }
  }

  lemma PullsStep(c: Config, s: State, a: Action, s': State)
    requires Pulls(s) && Step(c, s, a, s')
    ensures Pulls(s')
  {
    hide BatcherStep, SubmitterStep, DrainerStep, WorkerStep, StopperStep;
    match a
    case Batcher(ch) => PullsBatcher(c, s, ch, s');
    case WorkerTurn(w, ch) => PullsWorker(s, w, ch, s');
    case Submitter(r) => SubmitterFrame(c, s, r, s');
    case DrainerTurn(i) => DrainMoves(s, i, s');
    case StopperTurn(i) => StopperFrame(s, i, s');
    case _ =>
  }

  /** A worker's mark is set when it enters an iteration of Run, to what has ever been sent, and kept to its end. */
  lemma MarkStep(c: Config, s: State, a: Action, s': State, w: nat)
    requires Step(c, s, a, s') && w < |s.workers|
    ensures |s'.workers| == |s.workers|
    ensures s'.workers[w].Level? ==>
      s'.workers[w].mark == if s.workers[w].Level? then s.workers[w].mark else Lengths(s'.chans.sent)
    ensures s'.workers[w].Level? && !s.workers[w].Level? ==> s'.chans == s.chans
  {
    hide BatcherStep, SubmitterStep, DrainerStep, WorkerStep, StopperStep;
    match a
    case Batcher(ch) => BatcherWorkers(c, s, ch, s');
    case WorkerTurn(v, ch) => MarkWorker(s, v, ch, s', w);
    case Submitter(r) => SubmitterFrame(c, s, r, s');
    case DrainerTurn(i) => DrainMoves(s, i, s');
    case StopperTurn(i) => StopperFrame(s, i, s');
    case _ =>
  }

  lemma BatcherWorkers(c: Config, s: State, ch: Choice, s': State)
    requires BatcherStep(c, s, ch, s')
    ensures s'.workers == s.workers
  {
    hide FormNext, AccumulateNext;
  }

  lemma MarkWorker(s: State, v: nat, ch: WorkerChoice, s': State, w: nat)
    requires WorkerStep(s, v, ch, s') && w < |s.workers|
    ensures |s'.workers| == |s.workers|
    ensures s'.workers[w].Level? ==>
      s'.workers[w].mark == if s.workers[w].Level? then s.workers[w].mark else Lengths(s'.chans.sent)
    ensures s'.workers[w].Level? && !s.workers[w].Level? ==> s'.chans == s.chans
  {
    if !s.workers[v].Level? {
      hide PullStep;
      assert s'.chans == s.chans;
      assert s'.workers[v].Level? ==> s'.workers[v] == Level(0, Lengths(s.chans.sent));
    }
  }

  lemma StopperFrame(s: State, i: nat, s': State)
    requires StopperStep(s, i, s')
    ensures s' == s.(flags := s'.flags, stops := s'.stops, drains := s'.drains, logs := s'.logs)
  {
  }

  // ----- Batch formation: a variant over room, free slots, pending signals and the token -----

  /** Inside formBatch, once Phase 1 has consumed the token. */
  predicate InBatch(pc: Pc) {
    pc.DrainCall? || pc.Scan? || pc.Recv? || pc.Settle? || pc.FlushCheck? || Accumulating(pc) || pc.Rearm?
    || pc.Resignal?
  }

  /** Position inside formBatch, and inside one turn of accumulate's loop, counted down. */
  function Turn(pc: Pc): nat {
    match pc
    case DrainCall => 196
    case Scan(k, _) => if k <= CELLS then 99 + 2 * (CELLS - k) else 0
    case Recv(k, _, _) => 98 + 2 * (CELLS - k)
    case Settle(_, _, _) => 49
    case FlushCheck(_, _) => 48
    case AccTop(_, _) => 47
    case AccRecv(_, _, _, _) => 46
    case AccSettle(_, _, _, _) => 45
    case AccFlush(_, _, _) => 44
    case AccHigher(k, _, j, _) => if j <= 36 then 43 - j else 0
    case AccPark(_, _, _) => 3
    case Rearm(_, _) => 2
    case _ => 1
  }

  /** Room in the batch, free slots, pushes awaiting their increment, increments awaiting their signal, the token. */
  function Potential(c: Config, m: Matrix, pc: Pc, pushed: nat, added: nat): int {
    5 * (c.maxBatch - |Hand(pc)|) + 4 * (CELLS * c.perQueue - TotalLen(m.queues)) + 3 * pushed + 2 * added
    + (if m.token then 1 else 0)
  }

  function Variant(c: Config, s: State): int {
    45 * Potential(c, s.m, s.pc, |PushedSet(s.subs)|, |AddedSet(s.subs)|) + Turn(s.pc)
  }

  lemma VariantForm(c: Config, m: Matrix, stop: bool, ch: Choice, pc: Pc, pushed: nat, added: nat)
    requires PcOk(c, pc) && InBatch(pc) && Forming(pc)
    ensures var f := FormNext(c, m, {}, stop, ch, pc);
            f.Formed? && InBatch(f.pc) ==>
              45 * Potential(c, f.m, f.pc, pushed, added) + Turn(f.pc)
              < 45 * Potential(c, m, pc, pushed, added) + Turn(pc)
  {
    hide TotalLen;
    if pc.Recv? && m.queues[pc.k] != [] { TotalLenUpdate(m.queues, pc.k, m.queues[pc.k][1..]); }
  }

  lemma VariantAccumulate(c: Config, m: Matrix, stop: bool, ch: Choice, pc: Pc, pushed: nat, added: nat)
    requires PcOk(c, pc) && Accumulating(pc)
    ensures var f := AccumulateNext(c, m, {}, stop, ch, pc);
            f.Formed? && InBatch(f.pc) ==>
              45 * Potential(c, f.m, f.pc, pushed, added) + Turn(f.pc)
              < 45 * Potential(c, m, pc, pushed, added) + Turn(pc)
  {
    hide TotalLen;
    if pc.AccRecv? && m.queues[pc.k] != [] { TotalLenUpdate(m.queues, pc.k, m.queues[pc.k][1..]); }
  }

  lemma PotentialSubmitter(c: Config, s: State, r: Request, s': State)
    requires SubmitterStep(c, s, r, s')
    ensures Variant(c, s') <= Variant(c, s)
  {
    SubmitterCounts(c, s, r, s');
    SubmitterFrame(c, s, r, s');
    hide SubmitterStep, TotalLen, PushedSet, AddedSet;
  }

  lemma {:induction false} TotalLenBound(q: seq<seq<Request>>, cap: nat)
    requires forall k :: 0 <= k < |q| ==> |q[k]| <= cap
    ensures TotalLen(q) <= |q| * cap
  {
    if q != [] {
      TotalLenBound(q[1..], cap);
      assert (|q| - 1) * cap + cap == |q| * cap;
    }
  }

  lemma VariantBounded(c: Config, s: State)
    requires Shape(c, s) && InBatch(s.pc)
    ensures Variant(c, s) >= Turn(s.pc) >= (if Accumulating(s.pc) then 3 else 0)
  {
    assert forall k: Rank :: |s.m.queues[k]| <= c.perQueue;
    TotalLenBound(s.m.queues, c.perQueue);
  }

  lemma BatchSteps(c: Config, s: State, ch: Choice, s': State)
    requires InBatch(s.pc) && BatcherStep(c, s, ch, s')
    ensures !RunStep(c, s, ch, s')
    ensures Forming(s.pc) ==> FormStep(s, FormNext(c, s.m, s.gate.shut, StopSignal(s.flags), ch, s.pc), s')
    ensures !Forming(s.pc) ==> FormStep(s, AccumulateNext(c, s.m, s.gate.shut, StopSignal(s.flags), ch, s.pc), s')
  {
    hide FormNext, AccumulateNext;
  }

  /** While formBatch runs, each of the batcher's steps lowers the variant and nobody else's raises it. */
  lemma VariantStep(c: Config, s: State, a: Action, s': State)
    requires Shape(c, s) && Control(s) && Step(c, s, a, s') && InBatch(s.pc) && InBatch(s'.pc)
    requires s.subs.Keys <= s.logs.seen
    ensures Variant(c, s') <= Variant(c, s)
    ensures a.Batcher? ==> Variant(c, s') < Variant(c, s)
  {
    hide SubmitterStep, DrainerStep, WorkerStep, StopperStep, RunStep, FormNext, AccumulateNext, TotalLen;
    match a
    case Submitter(r) => PotentialSubmitter(c, s, r, s');
    case Batcher(ch) =>
      BatchSteps(c, s, ch, s');
      if Forming(s.pc) {
        VariantForm(c, s.m, StopSignal(s.flags), ch, s.pc, |PushedSet(s.subs)|, |AddedSet(s.subs)|);
      } else {
        VariantAccumulate(c, s.m, StopSignal(s.flags), ch, s.pc, |PushedSet(s.subs)|, |AddedSet(s.subs)|);
      }
    case DrainerTurn(i) => DrainerOn(s, i, s');
    case StopperTurn(i) => StopperFrame(s, i, s');
    case WorkerTurn(w, ch) => WorkerFrame(s, w, ch, s');
    case Enter(r) => assert PushedSet(s'.subs) == PushedSet(s.subs) && AddedSet(s'.subs) == AddedSet(s.subs);
    case _ =>
  }

  // ----- The receive loop -----

  predicate Receiving(pc: Pc) { pc.Recv? || pc.AccRecv? }

  /** Requests the running drainSubqueue may still take. */
  function Room(c: Config, pc: Pc): int { c.maxBatch - |Hand(pc)| }

  /** On an open matrix each step of the receive loop takes one request or leaves the loop. */
  lemma RoomStep(c: Config, s: State, a: Action, s': State)
    requires Shape(c, s) && Control(s) && Step(c, s, a, s') && Receiving(s.pc) && Receiving(s'.pc)
    ensures Room(c, s'.pc) == Room(c, s.pc) - (if a.Batcher? then 1 else 0)
  {
    hide SubmitterStep, DrainerStep, WorkerStep, StopperStep, RunStep;
    match a
    case Submitter(r) => SubmitterFrame(c, s, r, s');
    case Batcher(ch) => BatchSteps(c, s, ch, s');
    case DrainerTurn(i) => DrainerOn(s, i, s');
    case StopperTurn(i) => StopperFrame(s, i, s');
    case WorkerTurn(w, ch) => WorkerFrame(s, w, ch, s');
    case _ =>
  }
}
