/**
 The request pipeline as a machine of atomic steps: any number of submitters, one batcher, N workers,
 any number of stoppers, and two context cancellations, interleaved in every possible way.

 A state holds the shared variables of the source, one program counter per goroutine, and logs that
 no step reads (`seen`, `accepted`, `received`, `dispatched`, `notified`, and the snapshots inside
 program counters); they exist to state properties.
 */
module Pipeline {
  import opened Models
  import opened Ordering

  type Queues = q: seq<seq<Request>> | |q| == CELLS witness seq(CELLS, _ => [])

  /** Routing rule, capacity of a sub-queue, largest batch, capacity of a batch channel. */
  datatype Config = Config(route: Routing, perQueue: nat, maxBatch: nat, chanCap: nat) {
    ghost predicate Valid() { perQueue >= 1 && maxBatch >= 1 && chanCap >= 1 }
  }

  /** Requests drained from sub-queue `key`. */
  datatype Batch = Batch(key: Rank, requests: seq<Request>)

  type Channels = q: seq<seq<Batch>> | |q| == PRIORITIES witness seq(PRIORITIES, _ => [])
  type Counts = q: seq<nat> | |q| == PRIORITIES witness seq(PRIORITIES, _ => 0)

  /** What became of a request; every outcome but `Skipped` is a send on its result channel. */
  datatype Outcome = ShuttingDown | Unavailable | Cancelled | EncodeFailed | Answered | Skipped

  /** A goroutine inside `Submit`, named by the request it carries. */
  datatype SubPc =
    | Entered      // past the `stopping` and context checks
    | Locked       // holds the read lock
    | Checked      // found the matrix open
    | Pushed       // sent on the sub-queue, depth not yet raised
    | Added        // depth raised, wake token not yet offered
    | Leaving      // about to release the read lock

  /** The goroutine that calls `Start` and then closes the batch channels. */
  datatype Pc =
    | NotStarted
    | Top
    | Wait                                                                   // Phase 1 select
    | DrainCall
    | Scan(next: nat, snap: Queues)                                          // Drain: about to look at sub-queue `next`
    | Recv(k: Rank, got: seq<Request>, snap: Queues)                         // drainSubqueue called by Drain
    | Settle(k: Rank, got: seq<Request>, snap: Queues)                       // about to lower depth
    | FlushCheck(k: Rank, reqs: seq<Request>)
    | AccTop(k: Rank, reqs: seq<Request>)                                    // loop head of accumulate
    | AccRecv(k: Rank, reqs: seq<Request>, got: seq<Request>, snap: Queues)  // drainSubqueue called by DrainFrom
    | AccSettle(k: Rank, reqs: seq<Request>, got: seq<Request>, snap: Queues)
    | AccFlush(k: Rank, reqs: seq<Request>, snap: Queues)
    | AccHigher(k: Rank, reqs: seq<Request>, j: nat, snap: Queues)           // HasHigherPriorityThan
    | AccPark(k: Rank, reqs: seq<Request>, snap: Queues)                     // select of accumulate
    | Rearm(k: Rank, reqs: seq<Request>)                                     // deferred re-arming reads depth
    | Resignal(k: Rank, reqs: seq<Request>)
    | Dispatch(k: Rank, reqs: seq<Request>)
    | Failing(rest: seq<Request>)
    | Draining
    | Returned                                                               // stoppedCh is closed
    | ClosingChans(i: nat)
    | Gone

  /** A goroutine inside `drain`. */
  datatype DrainPc =
    | Off
    | Sweep(k: nat, out: seq<Request>)    // DrainAll
    | Notify(rest: seq<Request>)
    | CloseCall                           // Close, at closeOnce
    | LockWait
    | Flagging
    | Closing(t: nat)
    | Finished

  /** `start`: the queues when its DrainAll began; `passed[j]`: submissions accepted when it left sub-queue j. */
  datatype Drainer = Drainer(pc: DrainPc, start: Queues, passed: seq<nat>)

  datatype StopPc = Idle | Flagged | ChanClosed | Waiting | StopDraining | StopReturned

  datatype OnceState = Fresh | Running | Done

  /** A worker goroutine; `mark[c]`: batches ever sent on channel c when this iteration of Run began. */
  datatype WorkerPc =
    | Unstarted                                                              // has not entered Run
    | Level(l: nat, mark: Counts)                                            // nested select number l
    | Admit(batch: seq<Request>)
    | Filter(rest: seq<Request>, live: seq<Request>)
    | Upstream(live: seq<Request>)
    | Errors(rest: seq<Request>, outcome: Outcome)
    | Results(rest: seq<Request>)
    | Exited

  /** The sub-queues, the atomic depth counter and the wake token. */
  datatype Matrix = Matrix(queues: Queues, depth: int, token: bool)

  /** `closed`, the closed sub-queue channels, the write side of the lock, and closeOnce. */
  datatype Gate = Gate(closed: bool, shut: set<nat>, writer: bool, once: OnceState)

  datatype Flags = Flags(started: bool, stopping: bool, stopClosed: bool, ctxDone: bool, poolDone: bool)

  /** Batches ever sent and ever taken on the four channels, and which channels are closed. */
  datatype Chans = Chans(sent: Channels, taken: Counts, closed: set<nat>)

  /** Logs: submitted, accepted, received from a sub-queue, dispatched, and notified by drain. */
  datatype Logs = Logs(seen: set<Request>, accepted: seq<Request>, received: seq<Request>, dispatched: seq<Request>,
                       notified: seq<Request>, drainMark: nat, zeroed: bool)

  /** Requests that left the pipeline, those whose result channel is full, and those whose send found it full. */
  datatype Outbox = Outbox(retired: seq<(Request, Outcome)>, filled: set<Request>, dropped: set<Request>)

  datatype State = State(m: Matrix, gate: Gate, flags: Flags, subs: map<Request, SubPc>, pc: Pc, stops: seq<StopPc>,
                         drains: seq<Drainer>, chans: Chans, workers: seq<WorkerPc>, logs: Logs, box: Outbox,
                         panicked: bool)

  datatype Choice = Go | Abort | Timer | Flush

  datatype WorkerChoice =
    | Take(c: nat) | Fall | SeeClosed(c: nat) | SeeCtx                       // selects of Run
    | Refuse | Accept | Drop | FailEncode | FailUpstream                     // inside process

  datatype Action =
    | Enter(r: Request)
    | Submitter(r: Request)
    | Batcher(ch: Choice)
    | StopperTurn(i: nat)
    | DrainerTurn(i: nat)
    | WorkerTurn(w: nat, wch: WorkerChoice)
    | CancelBatcher
    | CancelPool
    | StartAgain                                                             // a Start that is not the first
    | HandlerReceive(r: Request)

  // ----- Derived notions -----

  predicate Holding(p: SubPc) { p != Entered }

  /** Submitters between their push and their depth increment. */
  function PushedSet(subs: map<Request, SubPc>): set<Request> {
    set r | r in subs && subs[r] == Pushed
  }

  function AddedSet(subs: map<Request, SubPc>): set<Request> {
    set r | r in subs && subs[r] == Added
  }

  /** A wake-up is pending: the token is set, or some submitter is between its push and its signal. */
  ghost predicate Hot(s: State) {
    s.m.token || PushedSet(s.subs) != {} || AddedSet(s.subs) != {}
  }

  function TotalLen(q: seq<seq<Request>>): nat {
    if q == [] then 0 else |q[0]| + TotalLen(q[1..])
  }

  /** Requests the batcher holds outside every queue and channel. */
  function Hand(pc: Pc): seq<Request> {
    match pc
    case Recv(_, got, _) => got
    case Settle(_, got, _) => got
    case FlushCheck(_, reqs) => reqs
    case AccTop(_, reqs) => reqs
    case AccRecv(_, reqs, got, _) => reqs + got
    case AccSettle(_, reqs, got, _) => reqs + got
    case AccFlush(_, reqs, _) => reqs
    case AccHigher(_, reqs, _, _) => reqs
    case AccPark(_, reqs, _) => reqs
    case Rearm(_, reqs) => reqs
    case Resignal(_, reqs) => reqs
    case Dispatch(_, reqs) => reqs
    case Failing(rest) => rest
    case _ => []
  }

  /** Requests received but not yet subtracted from depth. */
  function Unsettled(pc: Pc): nat {
    match pc
    case Recv(_, got, _) => |got|
    case Settle(_, got, _) => |got|
    case AccRecv(_, _, got, _) => |got|
    case AccSettle(_, _, got, _) => |got|
    case _ => 0
  }

  predicate Accumulating(pc: Pc) {
    pc.AccTop? || pc.AccRecv? || pc.AccSettle? || pc.AccFlush? || pc.AccHigher? || pc.AccPark?
  }

  /** Inside the body of the run loop, past its exit check. */
  predicate Active(pc: Pc) {
    pc.Wait? || pc.DrainCall? || pc.Scan? || pc.Recv? || pc.Settle? || pc.FlushCheck? || Accumulating(pc)
    || pc.Rearm? || pc.Resignal? || pc.Dispatch? || pc.Failing?
  }

  predicate Stopped(pc: Pc) {
    pc.Returned? || pc.ClosingChans? || pc.Gone?
  }

  /** No goroutine has entered drain. */
  ghost predicate AllOff(s: State) {
    forall i :: 0 <= i < |s.drains| ==> s.drains[i].pc.Off?
  }

  function DrainHand(d: Drainer): seq<Request> {
    match d.pc
    case Sweep(_, out) => out
    case Notify(rest) => rest
    case _ => []
  }

  function WorkerHand(w: WorkerPc): seq<Request> {
    match w
    case Admit(batch) => batch
    case Filter(rest, live) => rest + live
    case Upstream(live) => live
    case Errors(rest, _) => rest
    case Results(rest) => rest
    case _ => []
  }

  /** The j-th sub-queue HasHigherPriorityThan looks at: the next priority up first. */
  function HigherCell(k: Rank, j: nat): Rank
    requires j < HigherCount(k)
  {
    (k / BLOCK - 1 - j / BLOCK) * BLOCK + j % BLOCK
  }

  function HigherCount(k: Rank): nat { BLOCK * (k / BLOCK) }

  /** The t-th sub-queue Close closes: priority ascending. */
  function CloseOrder(t: nat): Rank
    requires t < CELLS
  {
    (PRIORITIES - 1 - t / BLOCK) * BLOCK + t % BLOCK
  }

  function Lengths(sent: Channels): Counts {
    [|sent[0]|, |sent[1]|, |sent[2]|, |sent[3]|]
  }

  // ----- Initial states -----

  ghost predicate Init(s: State) {
    && s.m == Matrix(seq(CELLS, _ => []), 0, false)
    && s.gate == Gate(false, {}, false, Fresh)
    && s.flags == Flags(false, false, false, false, false)
    && s.subs == map[] && s.pc == NotStarted && !s.panicked
    && (forall i :: 0 <= i < |s.stops| ==> s.stops[i] == Idle)
    && |s.drains| == |s.stops| + 1
    && (forall i :: 0 <= i < |s.drains| ==> s.drains[i].pc == Off && s.drains[i].passed == [])
    && s.chans == Chans(seq(PRIORITIES, _ => []), seq(PRIORITIES, _ => 0), {})
    && (forall w :: 0 <= w < |s.workers| ==> s.workers[w] == Unstarted)
    && s.logs == Logs({}, [], [], [], [], 0, false)
    && s.box == Outbox([], {}, {})
  }

  // ----- Shared fragments -----

  /** A request leaves the pipeline; a send on a full result channel would be dropped. */
  function Retire(b: Outbox, r: Request, o: Outcome): Outbox {
    Outbox(b.retired + [(r, o)],
           if o == Skipped then b.filled else b.filled + {r},
           if o != Skipped && r in b.filled then b.dropped + {r} else b.dropped)
  }

  /** The head of sub-queue k is received. */
  function Pop(m: Matrix, k: Rank): Matrix
    requires m.queues[k] != []
  {
    m.(queues := m.queues[k := m.queues[k][1..]])
  }

  function Push(m: Matrix, k: Rank, r: Request): Matrix {
    m.(queues := m.queues[k := m.queues[k] + [r]])
  }

  /** Goroutine i enters DrainAll. */
  ghost predicate BeginSweep(s: State, i: nat, drains: seq<Drainer>, logs: Logs)
    requires i < |s.drains|
  {
    drains == s.drains[i := Drainer(Sweep(0, []), s.m.queues, [])]
    && logs == if AllOff(s) then s.logs.(drainMark := |s.logs.received|) else s.logs
  }

  /** formBatch has returned: a nil batch restarts the loop. */
  function AfterForm(k: Rank, reqs: seq<Request>): Pc {
    if reqs == [] then Top else Dispatch(k, reqs)
  }

  // ----- Steps -----

  ghost predicate SubmitterStep(c: Config, s: State, r: Request, s': State) {
    r in s.subs && match s.subs[r]
    case Entered =>
      !s.gate.writer && s' == s.(subs := s.subs[r := Locked])
    case Locked =>
      s' == s.(subs := s.subs[r := if s.gate.closed then Leaving else Checked])
    case Checked =>
      var k := c.route(r);
      if k in s.gate.shut then
        s' == s.(panicked := true)
      else if |s.m.queues[k]| < c.perQueue then
        s' == s.(m := Push(s.m, k, r), subs := s.subs[r := Pushed], logs := s.logs.(accepted := s.logs.accepted + [r]))
      else
        s' == s.(subs := s.subs[r := Leaving])
    case Pushed =>
      s' == s.(m := s.m.(depth := s.m.depth + 1), subs := s.subs[r := Added])
    case Added =>
      s' == s.(m := s.m.(token := true), subs := s.subs[r := Leaving])
    case Leaving =>
      s' == s.(subs := s.subs - {r})
  }

  predicate StopSignal(f: Flags) { f.ctxDone || f.stopClosed }

  /** What one step of batch formation leaves: the matrix, the requests just received, the next position. */
  datatype Formed = Blocked | Formed(m: Matrix, got: seq<Request>, pc: Pc)

  /** run up to its exit check, Phase 1 of formBatch with Drain, and the deferred re-arming. */
  function FormNext(c: Config, m: Matrix, shut: set<nat>, stop: bool, ch: Choice, pc: Pc): Formed {
    match pc
    case Top => if stop then Blocked else Formed(m, [], Wait)
    case Wait =>
      if ch == Go then (if m.token then Formed(m.(token := false), [], DrainCall) else Blocked)
      else (if stop then Formed(m, [], Rearm(0, [])) else Blocked)
    case DrainCall => Formed(m, [], Scan(0, m.queues))
    case Scan(k, snap) =>
      Formed(m, [], if k >= CELLS then Rearm(0, [])
                    else if m.queues[k] == [] then Scan(k + 1, snap)
                    else Recv(k, [], snap))
    case Recv(k, got, snap) =>
      if |got| >= c.maxBatch then Formed(m, [], Settle(k, got, snap))
      else if m.queues[k] != [] then Formed(Pop(m, k), [m.queues[k][0]], Recv(k, got + [m.queues[k][0]], snap))
      else if k in shut then Formed(m, [], pc)                    // the source spins here
      else Formed(m, [], if got == [] then Scan(k + 1, snap) else Settle(k, got, snap))
    case Settle(k, got, _) => Formed(m.(depth := m.depth - |got|), [], FlushCheck(k, got))
    case FlushCheck(k, reqs) =>
      Formed(m, [], if |reqs| < c.maxBatch && ch != Flush then AccTop(k, reqs) else Rearm(k, reqs))
    case Rearm(k, reqs) => Formed(m, [], if m.depth > 0 then Resignal(k, reqs) else AfterForm(k, reqs))
    case Resignal(k, reqs) => Formed(m.(token := true), [], AfterForm(k, reqs))
    case _ => Blocked
  }

  /** accumulate, with DrainFrom and HasHigherPriorityThan. */
  function AccumulateNext(c: Config, m: Matrix, shut: set<nat>, stop: bool, ch: Choice, pc: Pc): Formed {
    match pc
    case AccTop(k, reqs) =>
      Formed(m, [], if |reqs| >= c.maxBatch then Rearm(k, reqs)
                    else if m.queues[k] == [] then AccFlush(k, reqs, m.queues)
                    else AccRecv(k, reqs, [], m.queues))
    case AccRecv(k, reqs, got, snap) =>
      if |reqs| + |got| >= c.maxBatch then Formed(m, [], AccSettle(k, reqs, got, snap))
      else if m.queues[k] != [] then Formed(Pop(m, k), [m.queues[k][0]], AccRecv(k, reqs, got + [m.queues[k][0]], snap))
      else if k in shut then Formed(m, [], pc)                    // the source spins here
      else Formed(m, [], if got == [] then AccFlush(k, reqs, snap) else AccSettle(k, reqs, got, snap))
    case AccSettle(k, reqs, got, snap) =>
      Formed(m.(depth := m.depth - |got|), [],
             if |reqs + got| >= c.maxBatch then Rearm(k, reqs + got) else AccFlush(k, reqs + got, snap))
    case AccFlush(k, reqs, snap) => Formed(m, [], if ch == Flush then Rearm(k, reqs) else AccHigher(k, reqs, 0, snap))
    case AccHigher(k, reqs, j, snap) =>
      Formed(m, [], if j >= HigherCount(k) then AccPark(k, reqs, snap)
                    else if m.queues[HigherCell(k, j)] != [] then Rearm(k, reqs)
                    else AccHigher(k, reqs, j + 1, snap))
    case AccPark(k, reqs, _) =>
      if ch == Go then (if m.token then Formed(m.(token := false), [], AccTop(k, reqs)) else Blocked)
      else (if stop || ch == Timer then Formed(m, [], Rearm(k, reqs)) else Blocked)
    case _ => Blocked
  }

  ghost predicate FormStep(s: State, f: Formed, s': State) {
    f.Formed? && s' == s.(m := f.m, logs := s.logs.(received := s.logs.received + f.got), pc := f.pc)
  }

  predicate Forming(pc: Pc) {
    pc.Top? || pc.Wait? || pc.DrainCall? || pc.Scan? || pc.Recv? || pc.Settle? || pc.FlushCheck? || pc.Rearm?
    || pc.Resignal?
  }

  ghost predicate DispatchStep(c: Config, s: State, k: Rank, reqs: seq<Request>, ch: Choice, s': State) {
    var cl := ClassOf(k);
    if ch != Go then StopSignal(s.flags) && s' == s.(pc := Failing(reqs))
    else if cl in s.chans.closed then s' == s.(panicked := true)
    else |s.chans.sent[cl]| - s.chans.taken[cl] < c.chanCap
         && s' == s.(chans := s.chans.(sent := s.chans.sent[cl := s.chans.sent[cl] + [Batch(k, reqs)]]),
                     logs := s.logs.(dispatched := s.logs.dispatched + reqs), pc := Top)
  }

  /** The batcher enters drain. */
  ghost predicate GiveUpStep(s: State, s': State) {
    |s.drains| > 0 && BeginSweep(s, 0, s'.drains, s'.logs)
    && s' == s.(drains := s'.drains, logs := s'.logs, pc := Draining)
  }

  /** After drain: Start returns, and the batch channels are closed in index order. */
  ghost predicate CloseStep(s: State, s': State) {
    match s.pc
    case Draining => |s.drains| > 0 && s.drains[0].pc.Finished? && s' == s.(pc := Returned)
    case Returned => s' == s.(pc := ClosingChans(0))
    case ClosingChans(i) =>
      if i >= PRIORITIES then s' == s.(pc := Gone)
      else if i in s.chans.closed then s' == s.(panicked := true)
      else s' == s.(chans := s.chans.(closed := s.chans.closed + {i}), pc := ClosingChans(i + 1))
    case _ => false
  }

  /** Start of the run, and the steps of run outside batch formation. */
  ghost predicate RunStep(c: Config, s: State, ch: Choice, s': State) {
    match s.pc
    case NotStarted => s' == s.(flags := s.flags.(started := true), pc := Top)
    case Top => StopSignal(s.flags) && GiveUpStep(s, s')
    case Dispatch(k, reqs) => DispatchStep(c, s, k, reqs, ch, s')
    case Failing(rest) =>
      if rest == [] then GiveUpStep(s, s')
      else s' == s.(box := Retire(s.box, rest[0], ShuttingDown), pc := Failing(rest[1..]))
    case _ => CloseStep(s, s')
  }

  ghost predicate BatcherStep(c: Config, s: State, ch: Choice, s': State) {
    || (Forming(s.pc) && FormStep(s, FormNext(c, s.m, s.gate.shut, StopSignal(s.flags), ch, s.pc), s'))
    || (Accumulating(s.pc) && FormStep(s, AccumulateNext(c, s.m, s.gate.shut, StopSignal(s.flags), ch, s.pc), s'))
    || RunStep(c, s, ch, s')
  }

  ghost predicate StopperStep(s: State, i: nat, s': State) {
    i < |s.stops| && i + 1 < |s.drains| && match s.stops[i]
    case Idle =>
      s' == s.(flags := s.flags.(stopping := true), stops := s.stops[i := Flagged])
    case Flagged =>
      s' == s.(flags := s.flags.(stopClosed := true), stops := s.stops[i := ChanClosed])
    case ChanClosed =>
      if s.flags.started then s' == s.(stops := s.stops[i := Waiting])
      else BeginSweep(s, i + 1, s'.drains, s'.logs)
           && s' == s.(drains := s'.drains, logs := s'.logs, stops := s.stops[i := StopDraining])
    case Waiting =>                       // stoppedCh, or the stopper's own context at any time
      s' == s.(stops := s.stops[i := StopReturned])
    case StopDraining =>
      s.drains[i + 1].pc.Finished? && s' == s.(stops := s.stops[i := StopReturned])
    case StopReturned => false
  }

  /** DrainAll, then the notification of what it returned. */
  ghost predicate SweepStep(s: State, i: nat, d: Drainer, s': State)
    requires i < |s.drains|
  {
    match d.pc
    case Sweep(k, out) =>
      if k >= CELLS then
        s' == s.(m := s.m.(depth := 0), logs := s.logs.(zeroed := true), drains := s.drains[i := d.(pc := Notify(out))])
      else if s.m.queues[k] != [] then
        var r := s.m.queues[k][0];
        s' == s.(m := Pop(s.m, k), logs := s.logs.(received := s.logs.received + [r]),
                 drains := s.drains[i := d.(pc := Sweep(k, out + [r]))])
      else
        s' == s.(drains := s.drains[i := d.(pc := Sweep(k + 1, out), passed := d.passed + [|s.logs.accepted|])])
    case Notify(rest) =>
      if rest == [] then s' == s.(drains := s.drains[i := d.(pc := CloseCall)])
      else s' == s.(box := Retire(s.box, rest[0], ShuttingDown),
                    logs := s.logs.(notified := s.logs.notified + [rest[0]]),
                    drains := s.drains[i := d.(pc := Notify(rest[1..]))])
    case _ => false
  }

  /** Close: closeOnce, the write lock, the flag, the 48 channels. `unlocked`: no submitter holds the read lock. */
  function CloseNext(g: Gate, unlocked: bool, p: DrainPc): Option<(Gate, DrainPc)> {
    match p
    case CloseCall =>
      if g.once == Fresh then Some((g.(once := Running), LockWait))
      else if g.once == Done then Some((g, Finished))
      else None
    case LockWait => if !g.writer && unlocked then Some((g.(writer := true), Flagging)) else None
    case Flagging => Some((g.(closed := true), Closing(0)))
    case Closing(t) =>
      if t >= CELLS then Some((g.(writer := false, once := Done), Finished))
      else Some((g.(shut := g.shut + {CloseOrder(t)}), Closing(t + 1)))
    case _ => None
  }

  ghost predicate DrainerStep(s: State, i: nat, s': State) {
    i < |s.drains| &&
    var d := s.drains[i];
    if d.pc.Sweep? || d.pc.Notify? then SweepStep(s, i, d, s')
    else
      var n := CloseNext(s.gate, forall r :: r in s.subs ==> !Holding(s.subs[r]), d.pc);
      n.Some? && s' == s.(gate := n.value.0, drains := s.drains[i := d.(pc := n.value.1)])
  }

  /** Channel cl has no batch buffered. */
  predicate Drained(ch: Chans, cl: nat)
    requires cl < PRIORITIES
  {
    ch.taken[cl] >= |ch.sent[cl]|
  }

  /** Select number l of Run watches the channels of class 3 - l and up. */
  predicate Watched(l: nat, cl: nat) { 3 - l <= cl < PRIORITIES }

  /** One select of Run. */
  ghost predicate PullStep(s: State, w: nat, l: nat, mark: Counts, ch: WorkerChoice, s': State)
    requires w < |s.workers|
  {
    match ch
    case Take(cl) =>
      Watched(l, cl) && !Drained(s.chans, cl)
      && s' == s.(workers := s.workers[w := Admit(s.chans.sent[cl][s.chans.taken[cl]].requests)],
                  chans := s.chans.(taken := s.chans.taken[cl := s.chans.taken[cl] + 1]))
    case Fall =>
      l < 3 && (forall cl: nat :: Watched(l, cl) ==> Drained(s.chans, cl) && cl !in s.chans.closed)
      && s' == s.(workers := s.workers[w := Level(l + 1, mark)])
    case SeeClosed(cl) =>
      Watched(l, cl) && Drained(s.chans, cl) && cl in s.chans.closed && s' == s.(workers := s.workers[w := Exited])
    case SeeCtx =>
      l >= 3 && s.flags.poolDone && s' == s.(workers := s.workers[w := Exited])
    case _ => false
  }

  /** The next position inside process, and the request that leaves the pipeline, if any. */
  datatype Handled = Handled(p: WorkerPc, out: Option<(Request, Outcome)>)

  /** process: admission, pre-send filter, upstream call, fan-out; `again` is the first or next iteration of Run. */
  function ProcessNext(p: WorkerPc, ch: WorkerChoice, again: WorkerPc): Handled {
    match p
    case Unstarted => Handled(again, None)
    case Admit(batch) => Handled(if ch == Refuse then Errors(batch, Unavailable) else Filter(batch, []), None)
    case Filter(rest, live) =>
      if rest == [] then Handled(if live == [] then again else Upstream(live), None)
      else if ch == Drop then Handled(Filter(rest[1..], live), Some((rest[0], Cancelled)))
      else Handled(Filter(rest[1..], live + [rest[0]]), None)
    case Upstream(live) =>
      Handled(if ch == FailEncode then Errors(live, EncodeFailed)
              else if ch == FailUpstream then Errors(live, Unavailable)
              else Results(live), None)
    case Errors(rest, o) =>
      if rest == [] then Handled(again, None) else Handled(Errors(rest[1..], o), Some((rest[0], o)))
    case Results(rest) =>
      if rest == [] then Handled(again, None)
      else Handled(Results(rest[1..]), Some((rest[0], if ch == Drop then Skipped else Answered)))
    case _ => Handled(p, None)
  }

  ghost predicate ProcessStep(s: State, w: nat, h: Handled, s': State)
    requires w < |s.workers|
  {
    s' == s.(workers := s.workers[w := h.p],
             box := if h.out.Some? then Retire(s.box, h.out.value.0, h.out.value.1) else s.box)
  }

  ghost predicate WorkerStep(s: State, w: nat, ch: WorkerChoice, s': State) {
    w < |s.workers| &&
    var p := s.workers[w];
    if p.Level? then PullStep(s, w, p.l, p.mark, ch, s')
    else !p.Exited? && ProcessStep(s, w, ProcessNext(p, ch, Level(0, Lengths(s.chans.sent))), s')
  }

  /** What the batcher leaves alone outside batch formation. */
  ghost predicate RunKeeps(s: State, s': State) {
    && s'.m == s.m && s'.gate == s.gate && s'.subs == s.subs && s'.stops == s.stops && s'.workers == s.workers
    && s'.flags == s.flags.(started := s'.flags.started)
  }

  lemma DispatchFrame(c: Config, s: State, k: Rank, reqs: seq<Request>, ch: Choice, s': State)
    requires DispatchStep(c, s, k, reqs, ch, s')
    ensures RunKeeps(s, s') && s'.drains == s.drains && s'.logs == s.logs.(dispatched := s'.logs.dispatched)
    ensures s'.flags == s.flags && (s'.pc.Top? || s'.pc == Failing(reqs) || s'.pc == s.pc)
  {
  }

  lemma CloseFrame(s: State, s': State)
    requires CloseStep(s, s')
    ensures RunKeeps(s, s') && s'.drains == s.drains && s'.logs == s.logs && s'.flags == s.flags
    ensures (s.pc.Draining? || Stopped(s.pc)) && Stopped(s'.pc)
  {
  }

  lemma GiveUpFrame(s: State, s': State)
    requires GiveUpStep(s, s')
    ensures RunKeeps(s, s') && s'.flags == s.flags && s'.pc.Draining?
  {
  }

  /** Outside batch formation the batcher changes its position and little else. */
  lemma RunFrame(c: Config, s: State, ch: Choice, s': State)
    requires RunStep(c, s, ch, s')
    ensures RunKeeps(s, s')
    ensures
      || (s'.drains == s.drains && s'.logs == s.logs.(dispatched := s'.logs.dispatched))
      || (GiveUpStep(s, s') && (s.pc.Top? || s.pc == Failing([])))
  {
    hide DispatchStep, CloseStep, GiveUpStep;
    match s.pc
    case NotStarted =>
    case Top => GiveUpFrame(s, s');
    case Dispatch(k, reqs) => DispatchFrame(c, s, k, reqs, ch, s');
    case Failing(rest) => if rest == [] { GiveUpFrame(s, s'); }
    case _ => CloseFrame(s, s');
  }

  /** Where a step outside batch formation can lead. */
  lemma RunProgress(c: Config, s: State, ch: Choice, s': State)
    requires RunStep(c, s, ch, s')
    ensures s.pc.Draining? || Stopped(s.pc) ==> Stopped(s'.pc)
    ensures s.pc.NotStarted? ==> s'.flags.started && s'.pc.Top?
    ensures !s.pc.NotStarted? ==> s'.flags == s.flags && !s'.pc.NotStarted?
    ensures Active(s'.pc) ==> Active(s.pc)
    ensures Unsettled(s.pc) == Unsettled(s'.pc) == 0
    ensures s'.pc.Top? ==> s.pc.NotStarted? || s.pc.Dispatch?
    ensures s'.pc.Dispatch? ==> s'.pc == s.pc
    ensures !s'.pc.Wait? && !s'.pc.NotStarted? && !Accumulating(s'.pc)
    ensures !s'.pc.Scan? && !s'.pc.Recv? && !s'.pc.Settle?
  {
    hide DispatchStep, CloseStep, GiveUpStep;
    match s.pc
    case NotStarted =>
    case Top => GiveUpFrame(s, s');
    case Dispatch(k, reqs) => DispatchFrame(c, s, k, reqs, ch, s');
    case Failing(rest) => if rest == [] { GiveUpFrame(s, s'); }
    case _ => CloseFrame(s, s');
  }

  /** Outside batch formation, only a dispatch sends or logs. */
  lemma RunQuiet(c: Config, s: State, ch: Choice, s': State)
    requires RunStep(c, s, ch, s') && !s.pc.Dispatch?
    ensures s'.chans.sent == s.chans.sent && s'.chans.taken == s.chans.taken && s'.logs.dispatched == s.logs.dispatched
    ensures s'.pc.Failing? ==> s.pc.Failing?
    ensures !s.pc.Top? && !s.pc.Failing? ==> s'.box == s.box && s'.logs == s.logs && s'.drains == s.drains
    ensures !s.pc.Failing? ==> Hand(s'.pc) == Hand(s.pc)
    ensures s.box.retired <= s'.box.retired && (s'.drains != s.drains ==> s'.box == s.box)
  {
    hide DispatchStep;
  }

  /** What a worker's step leaves alone. */
  lemma WorkerFrame(s: State, w: nat, ch: WorkerChoice, s': State)
    requires WorkerStep(s, w, ch, s')
    ensures s' == s.(workers := s'.workers, chans := s'.chans, box := s'.box)
    ensures s'.chans == s.chans.(taken := s'.chans.taken)
  {
  }

  /** What a submitter's step leaves alone. */
  lemma SubmitterFrame(c: Config, s: State, r: Request, s': State)
    requires SubmitterStep(c, s, r, s')
    ensures s' == s.(m := s'.m, subs := s'.subs, logs := s'.logs, panicked := s'.panicked)
    ensures s'.logs == s.logs.(accepted := s'.logs.accepted)
  {
  }

  /** One atomic step of the goroutine the action names. */
  ghost predicate Step(c: Config, s: State, a: Action, s': State) {
    match a
    case Enter(r) =>                     // each request is submitted once
      !s.flags.stopping && r !in s.logs.seen
      && s' == s.(subs := s.subs[r := Entered], logs := s.logs.(seen := s.logs.seen + {r}))
    case Submitter(r) => SubmitterStep(c, s, r, s')
    case Batcher(ch) => BatcherStep(c, s, ch, s')
    case StopperTurn(i) => StopperStep(s, i, s')
    case DrainerTurn(i) => DrainerStep(s, i, s')
    case WorkerTurn(w, wch) => WorkerStep(s, w, wch, s')
    case CancelBatcher => s' == s.(flags := s.flags.(ctxDone := true))
    case CancelPool => s' == s.(flags := s.flags.(poolDone := true))
    case StartAgain => s.flags.started && s' == s
    case HandlerReceive(r) => s' == s.(box := s.box.(filled := s.box.filled - {r}))
  }

  /** A finite run: an initial state and labelled steps. */
  ghost predicate Run(c: Config, states: seq<State>, actions: seq<Action>) {
    c.Valid() && |states| == |actions| + 1 && Init(states[0])
    && forall i :: 0 <= i < |actions| ==> Step(c, states[i], actions[i], states[i + 1])
  }
}
