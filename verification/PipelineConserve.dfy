/**
 Conservation. Every accepted request is in exactly one place: its sub-queue, the batcher's hand, a
 drainer's hand, a batch channel, a worker's hand, or retired. So it is retired at most once, and no
 send on a result channel ever finds it full.
 */
module PipelineConserve {
  import opened Models
  import opened Ordering
  import opened Pipeline
  import opened PipelineControl
  import opened PipelineFlow

  /** Copies of x held by the elements of s. */
  function Gather<T>(f: T -> seq<Request>, s: seq<T>, x: Request): nat {
    if s == [] then 0 else Gather(f, s[..|s| - 1], x) + Count(f(s[|s| - 1]), x)
  }

  lemma {:induction false} GatherUpdate<T>(f: T -> seq<Request>, s: seq<T>, i: nat, e: T, x: Request)
    requires i < |s|
    ensures Gather(f, s[i := e], x) == Gather(f, s, x) - Count(f(s[i]), x) + Count(f(e), x)
    ensures Gather(f, s, x) >= Count(f(s[i]), x)
  {
    var n := |s| - 1;
    if i == n {
      assert s[i := e][..n] == s[..n];
    } else {
      assert s[i := e][..n] == s[..n][i := e];
      GatherUpdate(f, s[..n], i, e, x);
    }
  }

  lemma GatherSnoc<T>(f: T -> seq<Request>, s: seq<T>, e: T, x: Request)
    ensures Gather(f, s + [e], x) == Gather(f, s, x) + Count(f(e), x)
  {
    assert (s + [e])[..|s|] == s;
  }

  lemma {:induction false} GatherHead<T>(f: T -> seq<Request>, s: seq<T>, x: Request)
    requires s != []
    ensures Gather(f, s, x) == Count(f(s[0]), x) + Gather(f, s[1..], x)
  {
    var n := |s| - 1;
    if n > 0 {
      GatherHead(f, s[..n], x);
      assert s[..n][1..] == s[1..][..n - 1];
    } else {
      assert s[..n] == [] && s[1..] == [];
    }
  }

  lemma {:induction false} GatherEmpty<T>(f: T -> seq<Request>, s: seq<T>, x: Request)
    requires forall i :: 0 <= i < |s| ==> f(s[i]) == []
    ensures Gather(f, s, x) == 0
  {
    if s != [] { GatherEmpty(f, s[..|s| - 1], x); }
  }

  // ----- Places -----

  function Queued(q: seq<Request>): seq<Request> { q }
  function Carried(b: Batch): seq<Request> { b.requests }
  function Left(p: (Request, Outcome)): seq<Request> { [p.0] }

  function InQueues(q: Queues, x: Request): nat { Gather(Queued, q, x) }
  function InHand(pc: Pc, x: Request): nat { Count(Hand(pc), x) }
  function InDrains(ds: seq<Drainer>, x: Request): nat { Gather(DrainHand, ds, x) }
  function InWorkers(ws: seq<WorkerPc>, x: Request): nat { Gather(WorkerHand, ws, x) }
  function Retired(r: seq<(Request, Outcome)>, x: Request): nat { Gather(Left, r, x) }

  /** Copies of x in the batches buffered on one channel. */
  function Buffered(sent: seq<Batch>, taken: nat, x: Request): nat {
    if taken <= |sent| then Gather(Carried, sent[taken..], x) else 0
  }

  function InChannels(sent: Channels, taken: Counts, x: Request): nat {
    Buffered(sent[0], taken[0], x) + Buffered(sent[1], taken[1], x)
    + Buffered(sent[2], taken[2], x) + Buffered(sent[3], taken[3], x)
  }

  /** How often x occurs anywhere in the system. */
  function Copies(s: State, x: Request): nat {
    InQueues(s.m.queues, x) + InHand(s.pc, x) + InDrains(s.drains, x)
    + InChannels(s.chans.sent, s.chans.taken, x) + InWorkers(s.workers, x) + Retired(s.box.retired, x)
  }

  /** x is accepted at most once, and not before its submitter's push. */
  ghost predicate Distinct(subs: map<Request, SubPc>, l: Logs, x: Request) {
    && subs.Keys <= l.seen
    && (Count(l.accepted, x) > 0 ==> x in l.seen)
    && (x in subs && subs[x] in {Entered, Locked, Checked} ==> Count(l.accepted, x) == 0)
    && Count(l.accepted, x) <= 1
  }

  /** A full result channel belongs to a retired request, and x's was never found full. */
  ghost predicate Delivered(b: Outbox, x: Request) {
    (x in b.filled ==> Retired(b.retired, x) >= 1) && x !in b.dropped
  }

  /** What is kept about one request x. */
  ghost predicate Once(s: State, x: Request) {
    Distinct(s.subs, s.logs, x) && Copies(s, x) == Count(s.logs.accepted, x) && Delivered(s.box, x)
  }

  lemma OnceInit(c: Config, s: State, x: Request)
    requires Init(s)
    ensures Once(s, x)
  {
    GatherEmpty(Queued, s.m.queues, x);
    GatherEmpty(DrainHand, s.drains, x);
    GatherEmpty(WorkerHand, s.workers, x);
  }

  /** A request in some hand has not been retired, so its result channel is still empty. */
  lemma RetireOnce(b: Outbox, r: Request, o: Outcome, x: Request)
    requires Delivered(b, x) && (r == x ==> Retired(b.retired, x) == 0)
    ensures Delivered(Retire(b, r, o), x)
    ensures Retired(Retire(b, r, o).retired, x) == Retired(b.retired, x) + One(r, x)
  {
    GatherSnoc(Left, b.retired, (r, o), x);
    CountSnoc([], r, x);
    assert [] + [r] == Left((r, o));
  }

  lemma PopQueues(q: Queues, k: Rank, x: Request)
    requires q[k] != []
    ensures InQueues(q[k := q[k][1..]], x) == InQueues(q, x) - One(q[k][0], x)
  {
    GatherUpdate(Queued, q, k, q[k][1..], x);
    CountHead(q[k], x);
  }

  // ----- Steps -----

  lemma DistinctSubmitter(c: Config, s: State, r: Request, s': State, x: Request)
    requires Distinct(s.subs, s.logs, x) && SubmitterStep(c, s, r, s')
    ensures Distinct(s'.subs, s'.logs, x)
  {
    SubmitterMoves(c, s, r, s');
    CountSnoc(s.logs.accepted, r, x);
  }

  lemma OnceSubmitter(c: Config, s: State, r: Request, s': State, x: Request)
    requires Once(s, x) && SubmitterStep(c, s, r, s')
    ensures Once(s', x)
  {
    SubmitterMoves(c, s, r, s');
    SubmitterFrame(c, s, r, s');
    DistinctSubmitter(c, s, r, s', x);
    hide SubmitterStep, Distinct, Delivered, InHand, InDrains, InChannels, InWorkers, Retired;
    if s'.logs != s.logs {
      var k := c.route(r);
      GatherUpdate(Queued, s.m.queues, k, s.m.queues[k] + [r], x);
      CountSnoc(s.m.queues[k], r, x);
      CountSnoc(s.logs.accepted, r, x);
    }
  }

  lemma OnceForm(c: Config, s: State, ch: Choice, s': State, x: Request)
    requires Once(s, x) && BatcherStep(c, s, ch, s') && !RunStep(c, s, ch, s')
    ensures Once(s', x)
  {
    FormMoves(c, s, ch, s');
    hide BatcherStep, RunStep, Delivered, InDrains, InChannels, InWorkers, Retired, Hand;
    if s'.m.queues != s.m.queues {
      PopQueues(s.m.queues, s.pc.k, x);
      CountSnoc(Hand(s.pc), s.m.queues[s.pc.k][0], x);
    }
  }

  lemma OnceDispatch(c: Config, s: State, k: Rank, reqs: seq<Request>, ch: Choice, s': State, x: Request)
    requires Shape(c, s) && Once(s, x) && s.pc == Dispatch(k, reqs) && DispatchStep(c, s, k, reqs, ch, s')
    ensures Once(s', x)
  {
    var cl := ClassOf(k);
    assert ChannelOk(c, cl, s.chans.sent[cl], s.chans.taken[cl]);
    hide Shape, Copies;
    if s'.chans != s.chans {
      SendBuffered(s.chans.sent[cl], s.chans.taken[cl], Batch(k, reqs), x);
      OneChannel(s.chans, s'.chans, cl, x);
      DispatchCopies(s, s', x);
    } else {
      assert Hand(s'.pc) == Hand(s.pc);
      DispatchCopies(s, s', x);
    }
  }

  lemma DispatchCopies(s: State, s': State, x: Request)
    requires s'.m.queues == s.m.queues && s'.drains == s.drains && s'.workers == s.workers && s'.box == s.box
    requires InHand(s.pc, x) + InChannels(s.chans.sent, s.chans.taken, x)
             == InHand(s'.pc, x) + InChannels(s'.chans.sent, s'.chans.taken, x)
    ensures Copies(s', x) == Copies(s, x)
  {
  }

  lemma SendBuffered(sent: seq<Batch>, taken: nat, b: Batch, x: Request)
    requires taken <= |sent|
    ensures Buffered(sent + [b], taken, x) == Buffered(sent, taken, x) + Count(b.requests, x)
  {
    assert (sent + [b])[taken..] == sent[taken..] + [b];
    GatherSnoc(Carried, sent[taken..], b, x);
  }

  lemma OneChannel(ch: Chans, ch': Chans, cl: nat, x: Request)
    requires cl < PRIORITIES
    requires forall j :: 0 <= j < PRIORITIES && j != cl ==> ch'.sent[j] == ch.sent[j] && ch'.taken[j] == ch.taken[j]
    ensures InChannels(ch'.sent, ch'.taken, x) - Buffered(ch'.sent[cl], ch'.taken[cl], x)
            == InChannels(ch.sent, ch.taken, x) - Buffered(ch.sent[cl], ch.taken[cl], x)
  {
  }

  lemma OnceFail(s: State, s': State, x: Request)
    requires Once(s, x) && s.pc.Failing? && s.pc.rest != []
    requires s' == s.(box := Retire(s.box, s.pc.rest[0], ShuttingDown), pc := Failing(s.pc.rest[1..]))
    ensures Once(s', x)
  {
    CountHead(s.pc.rest, x);
    assert InHand(s.pc, x) == One(s.pc.rest[0], x) + InHand(s'.pc, x);
    hide Hand, InHand, InQueues, InDrains, InChannels, InWorkers, Delivered, Retired, Gather, Count;
    RetireOnce(s.box, s.pc.rest[0], ShuttingDown, x);
  }

  /** A goroutine that enters drain holds nothing yet. */
  lemma OnceBegin(s: State, i: nat, s': State, x: Request)
    requires Once(s, x) && i < |s.drains| && DrainHand(s.drains[i]) == [] && BeginSweep(s, i, s'.drains, s'.logs)
    requires Hand(s'.pc) == Hand(s.pc) && s'.m == s.m && s'.chans == s.chans && s'.workers == s.workers
    requires s'.box == s.box && s'.subs == s.subs
    ensures Once(s', x)
  {
    GatherUpdate(DrainHand, s.drains, i, s'.drains[i], x);
    hide Delivered, InHand, InQueues, InChannels, InWorkers, Retired;
  }

  lemma OnceElsewhere(c: Config, s: State, ch: Choice, s': State, x: Request)
    requires Once(s, x) && RunStep(c, s, ch, s') && !s.pc.Dispatch? && !s.pc.Top? && !s.pc.Failing?
    ensures Once(s', x)
  {
    RunFrame(c, s, ch, s');
    RunQuiet(c, s, ch, s');
    hide RunStep, Hand, InQueues, InDrains, InChannels, InWorkers, Retired, Delivered, Distinct;
  }

  lemma OnceRun(c: Config, s: State, ch: Choice, s': State, x: Request)
    requires Shape(c, s) && Control(s) && Once(s, x) && RunStep(c, s, ch, s')
    ensures Once(s', x)
  {
    hide Once, DispatchStep, BeginSweep, CloseStep;
    match s.pc
    case Dispatch(k, reqs) => OnceDispatch(c, s, k, reqs, ch, s', x);
    case Top => OnceBegin(s, 0, s', x);
    case Failing(rest) => if rest == [] { OnceBegin(s, 0, s', x); } else { OnceFail(s, s', x); }
    case _ => OnceElsewhere(c, s, ch, s', x);
  }

  lemma OnceStopper(s: State, i: nat, s': State, x: Request)
    requires Control(s) && Once(s, x) && StopperStep(s, i, s')
    ensures Once(s', x)
  {
    hide Copies, Distinct, Delivered;
    assert StopperOk(s, i);
    if s'.drains != s.drains { OnceBegin(s, i + 1, s', x); }
    else {
      assert !BeginSweep(s, i + 1, s'.drains, s'.logs);
      OnceFrame(s, s', x);
    }
  }

  lemma OnceFrame(s: State, s': State, x: Request)
    requires Once(s, x) && s'.m.queues == s.m.queues && s'.pc == s.pc && s'.drains == s.drains && s'.chans == s.chans
    requires s'.workers == s.workers && s'.box == s.box && s'.logs == s.logs && s'.subs == s.subs
    ensures Once(s', x)
  {
  }

  lemma OnceDrainer(s: State, i: nat, s': State, x: Request)
    requires Once(s, x) && DrainerStep(s, i, s')
    ensures Once(s', x)
  {
    DrainMoves(s, i, s');
    var p := s.drains[i].pc;
    if p.Notify? && p.rest != [] { OnceNotify(s, i, s', x); }
    else {
      DrainerKeeps(s, i, s');
      hide DrainerStep, Delivered, Distinct;
      GatherUpdate(DrainHand, s.drains, i, s'.drains[i], x);
      if s'.m.queues != s.m.queues {
        PopQueues(s.m.queues, p.k, x);
        CountSnoc(p.out, s.m.queues[p.k][0], x);
      }
      DrainCopies(s, s', x);
    }
  }

  lemma DrainerKeeps(s: State, i: nat, s': State)
    requires DrainerStep(s, i, s') && !(s.drains[i].pc.Notify? && s.drains[i].pc.rest != [])
    ensures s'.box == s.box && (s'.m.queues == s.m.queues ==> DrainHand(s'.drains[i]) == DrainHand(s.drains[i]))
  {
  }

  lemma DrainCopies(s: State, s': State, x: Request)
    requires s'.pc == s.pc && s'.chans == s.chans && s'.workers == s.workers && s'.box == s.box
    requires InQueues(s.m.queues, x) + InDrains(s.drains, x) == InQueues(s'.m.queues, x) + InDrains(s'.drains, x)
    ensures Copies(s', x) == Copies(s, x)
  {
  }

  lemma OnceNotify(s: State, i: nat, s': State, x: Request)
    requires Once(s, x) && DrainerStep(s, i, s') && s.drains[i].pc.Notify? && s.drains[i].pc.rest != []
    ensures Once(s', x)
  {
    var rest := s.drains[i].pc.rest;
    GatherUpdate(DrainHand, s.drains, i, s'.drains[i], x);
    CountHead(rest, x);
    RetireOnce(s.box, rest[0], ShuttingDown, x);
    hide InHand, InQueues, InChannels, InWorkers, Delivered, Gather;
  }

  // ----- Workers -----

  /** What process does with the requests in its hands: all kept, or exactly one retired. */
  lemma ProcessHand(p: WorkerPc, ch: WorkerChoice, mark: Counts, x: Request)
    requires !p.Level? && !p.Exited?
    ensures var h := ProcessNext(p, ch, Level(0, mark));
            Count(WorkerHand(p), x) == Count(WorkerHand(h.p), x) + (if h.out.Some? then One(h.out.value.0, x) else 0)
  {
    hide Count;
    match p
    case Filter(rest, live) => FilterHand(rest, live, x);
    case Errors(rest, _) => if rest != [] { CountHead(rest, x); }
    case Results(rest) => if rest != [] { CountHead(rest, x); }
    case Admit(batch) => assert batch + [] == batch;
    case Upstream(_) =>
    case Unstarted =>
  }

  lemma FilterHand(rest: seq<Request>, live: seq<Request>, x: Request)
    ensures rest == [] ==> rest + live == live
    ensures rest != [] ==>
      Count(rest + live, x) == One(rest[0], x) + Count(rest[1..] + live, x)
      && Count(rest[1..] + (live + [rest[0]]), x) == Count(rest + live, x)
  {
    if rest != [] {
      assert (rest + live)[1..] == rest[1..] + live;
      CountHead(rest + live, x);
      assert rest[1..] + (live + [rest[0]]) == rest[1..] + live + [rest[0]];
      CountSnoc(rest[1..] + live, rest[0], x);
    }
  }

  lemma OnceProcess(s: State, w: nat, h: Handled, s': State, x: Request)
    requires Once(s, x) && w < |s.workers| && ProcessStep(s, w, h, s')
    requires Count(WorkerHand(s.workers[w]), x)
             == Count(WorkerHand(h.p), x) + (if h.out.Some? then One(h.out.value.0, x) else 0)
    ensures Once(s', x)
  {
    GatherUpdate(WorkerHand, s.workers, w, h.p, x);
    if h.out.Some? { RetireOnce(s.box, h.out.value.0, h.out.value.1, x); }
    hide InHand, InQueues, InChannels, InDrains, WorkerHand, Gather;
  }

  lemma TakeBuffered(sent: seq<Batch>, taken: nat, x: Request)
    requires taken < |sent|
    ensures Buffered(sent, taken, x) == Count(sent[taken].requests, x) + Buffered(sent, taken + 1, x)
  {
    GatherHead(Carried, sent[taken..], x);
    assert sent[taken..][1..] == sent[taken + 1..];
  }

  lemma OncePull(s: State, w: nat, ch: WorkerChoice, s': State, x: Request)
    requires Once(s, x) && w < |s.workers| && s.workers[w].Level?
    requires PullStep(s, w, s.workers[w].l, s.workers[w].mark, ch, s')
    ensures Once(s', x)
  {
    hide Delivered, Distinct, Copies;
    GatherUpdate(WorkerHand, s.workers, w, s'.workers[w], x);
    if ch.Take? {
      TakeBuffered(s.chans.sent[ch.c], s.chans.taken[ch.c], x);
      OneChannel(s.chans, s'.chans, ch.c, x);
    }
    PullCopies(s, s', x);
  }

  lemma PullCopies(s: State, s': State, x: Request)
    requires s'.m == s.m && s'.pc == s.pc && s'.drains == s.drains && s'.box == s.box
    requires InChannels(s.chans.sent, s.chans.taken, x) + InWorkers(s.workers, x)
             == InChannels(s'.chans.sent, s'.chans.taken, x) + InWorkers(s'.workers, x)
    ensures Copies(s', x) == Copies(s, x)
  {
  }

  lemma OnceWorker(s: State, w: nat, ch: WorkerChoice, s': State, x: Request)
    requires Once(s, x) && WorkerStep(s, w, ch, s')
    ensures Once(s', x)
  {
    hide PullStep, ProcessStep, ProcessNext, Once;
    var p := s.workers[w];
    if p.Level? { OncePull(s, w, ch, s', x); }
    else {
      ProcessHand(p, ch, Lengths(s.chans.sent), x);
      OnceProcess(s, w, ProcessNext(p, ch, Level(0, Lengths(s.chans.sent))), s', x);
    }
  }

  lemma OnceStep(c: Config, s: State, a: Action, s': State, x: Request)
    requires Shape(c, s) && Control(s) && Once(s, x) && Step(c, s, a, s')
    ensures Once(s', x)
  {
    hide BatcherStep, SubmitterStep, DrainerStep, WorkerStep, StopperStep, RunStep, Copies;
    match a
    case Submitter(r) => OnceSubmitter(c, s, r, s', x);
    case Batcher(ch) => if RunStep(c, s, ch, s') { OnceRun(c, s, ch, s', x); } else { OnceForm(c, s, ch, s', x); }
    case DrainerTurn(i) => OnceDrainer(s, i, s', x);
    case StopperTurn(i) => OnceStopper(s, i, s', x);
    case WorkerTurn(w, ch) => OnceWorker(s, w, ch, s', x);
    case Enter(r) => CopiesFrame(s, s', x);
    case CancelBatcher => OnceFrame(s, s', x);
    case CancelPool => OnceFrame(s, s', x);
    case StartAgain =>
    case HandlerReceive(r) => CopiesFrame(s, s', x);
  }

  lemma CopiesFrame(s: State, s': State, x: Request)
    requires s'.m.queues == s.m.queues && s'.pc == s.pc && s'.drains == s.drains && s'.chans == s.chans
    requires s'.workers == s.workers && s'.box.retired == s.box.retired
    ensures Copies(s', x) == Copies(s, x)
  {
  }
}
