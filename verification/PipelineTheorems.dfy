/**
 What holds in every state of every run of the pipeline, whatever the interleaving of submitters, batcher,
 workers, stoppers and cancellations.
 */
module PipelineTheorems {
  import opened Models
  import opened Ordering
  import opened Pipeline
  import opened PipelineControl
  import opened PipelineWake
  import opened PipelineFlow
  import opened PipelineConserve
  import opened PipelineAccount
  import opened PipelineOrder
  import opened PipelineShutdown
  import opened PipelineProgress
  import opened PipelineEnding

  // ----- The invariant -----

  ghost predicate Safe(c: Config, s: State) {
    Shape(c, s) && Control(s) && Lock(s) && Busy(s) && Ending(s)
  }

  ghost predicate Timely(c: Config, s: State) {
    Ledger(s) && Wake(c, s) && Snap(s) && Pulls(s)
  }

  ghost predicate Faithful(c: Config, s: State) {
    FifoOk(c, s) && Flow(c, s) && OnceAll(s) && Shutdown(c, s)
  }

  ghost predicate Inv(c: Config, s: State) {
    Safe(c, s) && Timely(c, s) && Faithful(c, s) && Accounts(s)
  }

  lemma InvInit(c: Config, s: State)
    requires c.Valid() && Init(s)
    ensures Inv(c, s)
  {
    hide Shape, Control, Lock, Busy, Ending, Errands, Ledger, Wake, Snap, Pulls, FifoOk, Flow, Shutdown, Once, Accounts;
    ShapeInit(c, s);
    ControlInit(c, s);
    LockInit(c, s);
    BusyInit(c, s);
    EndingInit(c, s);
    LedgerInit(c, s);
    WakeInit(c, s);
    SnapInit(c, s);
    PullsInit(c, s);
    FifoInit(c, s);
    FlowInit(c, s);
    ShutdownInit(c, s);
    AccountsInit(c, s);
    forall x
      ensures Once(s, x)
    {
      OnceInit(c, s, x);
    }
  }

  lemma SubmittersSeen(s: State)
    requires OnceAll(s)
    ensures s.subs.Keys <= s.logs.seen
  {
    assert Once(s, Request(0, 0, "", 0));
  }

  lemma AccountsErrands(s: State)
    requires Accounts(s)
    ensures Errands(s.workers)
  {
  }

  lemma InvStep(c: Config, s: State, a: Action, s': State)
    requires c.Valid() && Inv(c, s) && Step(c, s, a, s')
    ensures Inv(c, s')
  {
    hide Step, Shape, Control, Lock, Busy, Ending, Errands, Ledger, Wake, Snap, Pulls, FifoOk, Flow, Shutdown, Once,
      Accounts;
    SubmittersSeen(s);
    ShapeStep(c, s, a, s');
    ControlStep(c, s, a, s');
    LockStep(c, s, a, s');
    BusyStep(c, s, a, s');
    AccountsErrands(s);
    EndingStep(c, s, a, s');
    LedgerStep(c, s, a, s');
    WakeStep(c, s, a, s');
    SnapStep(c, s, a, s');
    PullsStep(c, s, a, s');
    FifoStep(c, s, a, s');
    FlowStep(c, s, a, s');
    ShutdownStep(c, s, a, s');
    AccountsStep(c, s, a, s');
    forall x
      ensures Once(s', x)
    {
      assert Once(s, x);
      OnceStep(c, s, a, s', x);
    }
  }

  /** The invariant holds throughout every run. */
  lemma {:induction false} InvRun(c: Config, states: seq<State>, actions: seq<Action>, i: nat)
    requires Run(c, states, actions) && i < |states|
    ensures Inv(c, states[i])
  {
    hide Inv, Init, Step;
    if i == 0 {
      InvInit(c, states[0]);
    } else {
      InvRun(c, states, actions, i - 1);
      InvStep(c, states[i - 1], actions[i - 1], states[i]);
    }
  }

  // ----- No lost wake-up -----

  /** A batcher that waits while work it could take is queued has a wake-up coming. */
  lemma NoLostWakeUp(c: Config, states: seq<State>, actions: seq<Action>, i: nat, j: Rank)
    requires Run(c, states, actions) && i < |states|
    ensures var s := states[i]; s.pc.Wait? && s.m.queues[j] != [] ==> Hot(s)
    ensures var s := states[i];
            s.pc.AccPark? && (j == s.pc.k || ClassOf(j) > ClassOf(s.pc.k)) && s.m.queues[j] != [] ==> Hot(s)
  {
    InvRun(c, states, actions, i);
    var s := states[i];
    hide Run, Shape, Lock, Busy, Ending, Ledger, Snap, Pulls, Faithful, Hot;
    if s.pc.AccPark? { HigherCells(s.pc.k, j); }
  }

  // ----- The depth counter -----

  /**
   Until a DrainAll resets it, depth misses the queued total by exactly the pushes not yet added and the
   receives not yet subtracted; so it is exact at quiescence and never below minus the submitters in flight.
   */
  lemma DepthLedger(c: Config, states: seq<State>, actions: seq<Action>, i: nat)
    requires Run(c, states, actions) && i < |states| && !states[i].logs.zeroed
    ensures var s := states[i];
            s.m.depth == TotalLen(s.m.queues) - |PushedSet(s.subs)| + Unsettled(s.pc) + Swept(s.drains)
            && s.m.depth >= -|PushedSet(s.subs)|
            && (PushedSet(s.subs) == {} && Unsettled(s.pc) == 0 && AllOff(s) ==> s.m.depth == TotalLen(s.m.queues))
  {
    InvRun(c, states, actions, i);
    if AllOff(states[i]) { SweptOff(states[i].drains); }
    hide Run, Safe, Faithful;
  }

  // ----- Conservation and delivery -----

  /** An accepted request is in exactly one place; it is retired at most once, and no send is ever dropped. */
  lemma ExactlyOnePlace(c: Config, states: seq<State>, actions: seq<Action>, i: nat, x: Request)
    requires Run(c, states, actions) && i < |states|
    ensures Copies(states[i], x) == if x in states[i].logs.accepted then 1 else 0
    ensures Retired(states[i].box.retired, x) <= 1
    ensures x !in states[i].box.dropped
  {
    InvRun(c, states, actions, i);
    hide Run, Safe, Timely;
    assert Once(states[i], x);
    CountIn(states[i].logs.accepted, x);
  }

  /**
   Where an accepted request went, at any moment: it is queued, in the batcher's or a drainer's hand, dispatched to
   the workers, or told that the server is shutting down, and only one of these.
   */
  lemma WhereItWent(c: Config, states: seq<State>, actions: seq<Action>, i: nat, x: Request)
    requires Run(c, states, actions) && i < |states|
    ensures var s := states[i];
            (if x in s.logs.accepted then 1 else 0)
            == Count(s.m.queues[c.route(x)], x) + InHand(s.pc, x) + InDrains(s.drains, x)
               + Count(s.logs.dispatched, x) + Notices(s.box.retired, x)
  {
    InvRun(c, states, actions, i);
    hide Run, Safe, Timely, Flow, Shutdown, Notices, InHand, InDrains;
    var s := states[i];
    var k := c.route(x);
    assert Accounted(s, x) && Once(s, x);
    CountIn(s.logs.accepted, x);
    CountSelect(c, s.logs.accepted, k, x);
    CountSelect(c, s.logs.received, k, x);
    CountAppend(Select(c.route, s.logs.received, k), s.m.queues[k], x);
  }

  /**
   After the run loop and every drain in progress, each accepted request was handed to the workers, has been told
   that the server is shutting down, or is still queued, and only one of these.
   */
  lemma NobodyForgotten(c: Config, states: seq<State>, actions: seq<Action>, i: nat, x: Request)
    requires Run(c, states, actions) && i < |states| && x in states[i].logs.accepted
    requires Stopped(states[i].pc) && forall m :: 0 <= m < |states[i].drains| ==> DrainHand(states[i].drains[m]) == []
    ensures var s := states[i];
            var queued, dispatched := x in s.m.queues[c.route(x)], x in s.logs.dispatched;
            var told := (x, ShuttingDown) in s.box.retired;
            (queued || dispatched || told) && !(queued && dispatched) && !(queued && told) && !(dispatched && told)
  {
    WhereItWent(c, states, actions, i, x);
    var s := states[i];
    hide Run;
    GatherEmpty(DrainHand, s.drains, x);
    ToldIn(s.box.retired, x);
    hide Notices, InDrains;
    CountIn(s.m.queues[c.route(x)], x);
    CountIn(s.logs.dispatched, x);
  }

  // ----- Channels -----

  /** No send on a closed channel and no second close, in any run. */
  lemma NoPanic(c: Config, states: seq<State>, actions: seq<Action>, i: nat)
    requires Run(c, states, actions) && i < |states|
    ensures !states[i].panicked
  {
    InvRun(c, states, actions, i);
    hide Run, Timely, Faithful;
  }

  /** The batcher never forms a batch from a closed matrix, so its receive loops never spin. */
  lemma NeverDrainsClosed(c: Config, states: seq<State>, actions: seq<Action>, i: nat)
    requires Run(c, states, actions) && i < |states| && Active(states[i].pc)
    ensures !states[i].gate.closed && states[i].gate.shut == {} && AllOff(states[i])
    ensures i < |actions| && actions[i].Batcher? && (states[i].pc.Recv? || states[i].pc.AccRecv?) ==>
      states[i + 1].pc != states[i].pc
  {
    InvRun(c, states, actions, i);
    hide Inv, Timely, Faithful;
    assert Control(states[i]) by { assert Inv(c, states[i]) ==> Safe(c, states[i]); }
  }

  // ----- Batches -----

  /**
   Every batch on channel cl holds 1 to maxBatch requests of one sub-queue of class cl, and per sub-queue the
   batches sent are, end to end, a prefix of what was accepted for it.
   */
  lemma BatchesInOrder(c: Config, states: seq<State>, actions: seq<Action>, i: nat, k: Rank)
    requires Run(c, states, actions) && i < |states|
    ensures var sent := states[i].chans.sent[ClassOf(k)];
            (forall b :: b in sent ==> GoodBatch(c, ClassOf(k), b))
            && BatchesOf(sent, k) <= Select(c.route, states[i].logs.accepted, k)
  {
    InvRun(c, states, actions, i);
    hide Run, Timely;
    var s := states[i];
    assert ChannelOk(c, ClassOf(k), s.chans.sent[ClassOf(k)], s.chans.taken[ClassOf(k)]);
    var more := s.logs.received[|s.logs.dispatched|..];
    assert s.logs.received == s.logs.dispatched + more;
    SelectAppend(c.route, s.logs.dispatched, more, k);
  }

  // ----- Priority -----

  /** What Drain returns: nothing queued when its scan began precedes it, and it starts with what was queued first. */
  lemma ScanTakesFirst(c: Config, states: seq<State>, actions: seq<Action>, i: nat)
    requires Run(c, states, actions) && i < |states| && states[i].pc.Settle?
    ensures var pc := states[i].pc;
            (forall j: Rank :: j < pc.k || ClassOf(j) > ClassOf(pc.k) ==> pc.snap[j] == [])
            && pc.snap[pc.k] <= pc.got + states[i].m.queues[pc.k]
  {
    InvRun(c, states, actions, i);
    hide Run, Lock, Busy, Ending, Shape, Ledger, Wake, Pulls, Faithful;
  }

  /** Worker w is in one iteration of Run, between its selects, from position i to j of the run. */
  ghost predicate Pulling(states: seq<State>, i: nat, j: nat, w: nat) {
    i <= j < |states| && forall m :: i <= m <= j ==> w < |states[m].workers| && states[m].workers[w].Level?
  }

  /**
   A worker whose iteration of Run, its first or a later one, began at position i takes class cl only after every
   batch of a higher class that had ever been sent by then has been taken.
   */
  lemma WorkersPullInOrder(c: Config, states: seq<State>, actions: seq<Action>, i: nat, j: nat,
                           w: nat, cl: nat, higher: nat)
    requires Run(c, states, actions) && 0 < i && Pulling(states, i, j, w)
    requires w < |states[i - 1].workers| && !states[i - 1].workers[w].Level?
    requires j < |actions| && actions[j] == WorkerTurn(w, Take(cl)) && cl < higher < PRIORITIES
    ensures |states[i].chans.sent[higher]| <= states[j].chans.taken[higher]
  {
    MarkAtEntry(c, states, actions, i, j, w);
    InvRun(c, states, actions, j);
    hide Safe, Faithful, Snap, Wake, Ledger, Accounts;
    var s := states[j];
    assert PullAt(s.workers[w], s.chans.sent, s.chans.taken);
    assert WorkerStep(s, w, Take(cl), states[j + 1]);
    assert PullStep(s, w, s.workers[w].l, s.workers[w].mark, Take(cl), states[j + 1]);
    assert Watched(s.workers[w].l, cl);
  }

  lemma {:induction false} MarkAtEntry(c: Config, states: seq<State>, actions: seq<Action>, i: nat, j: nat, w: nat)
    requires Run(c, states, actions) && 0 < i && Pulling(states, i, j, w)
    requires w < |states[i - 1].workers| && !states[i - 1].workers[w].Level?
    ensures states[j].workers[w].mark == Lengths(states[i].chans.sent)
    decreases j - i
  {
    hide Step, Init;
    MarkStep(c, states[j - 1], actions[j - 1], states[j], w);
    if i < j { MarkAtEntry(c, states, actions, i, j - 1, w); }
  }

  // ----- Preemption -----

  /** DrainFrom calls that accumulate starts between positions i and j of a run. */
  function DrainFroms(states: seq<State>, actions: seq<Action>, i: nat, j: nat): nat
    requires i <= j < |states| && |states| == |actions| + 1
    decreases j - i
  {
    if i == j then 0
    else (if actions[i].Batcher? && states[i].pc.AccTop? then 1 else 0) + DrainFroms(states, actions, i + 1, j)
  }

  ghost predicate Throughout(states: seq<State>, i: nat, j: nat, inside: Pc -> bool) {
    i <= j < |states| && forall m :: i <= m <= j ==> inside(states[m].pc)
  }

  /** The turn of accumulate that began with sub-queue h non-empty. */
  ghost predicate LastTurn(pc: Pc, h: Rank) {
    match pc
    case AccRecv(k, _, _, snap) => ClassOf(h) > ClassOf(k) && snap[h] != []
    case AccSettle(k, _, _, snap) => ClassOf(h) > ClassOf(k) && snap[h] != []
    case AccFlush(k, _, snap) => ClassOf(h) > ClassOf(k) && snap[h] != []
    case AccHigher(k, _, _, snap) => ClassOf(h) > ClassOf(k) && snap[h] != []
    case _ => false
  }

  lemma LastTurnForm(c: Config, m: Matrix, stop: bool, ch: Choice, pc: Pc, h: Rank)
    requires Accumulating(pc) && SnapAt(m.queues, pc) && ClassOf(h) > ClassOf(pc.k)
    requires LastTurn(pc, h) || (pc.AccTop? && m.queues[h] != [])
    ensures var f := AccumulateNext(c, m, {}, stop, ch, pc);
            f.Formed? && Accumulating(f.pc) ==> LastTurn(f.pc, h)
  {
    HigherCells(pc.k, h);
  }

  lemma HigherStays(c: Config, m: Matrix, stop: bool, ch: Choice, pc: Pc, h: Rank)
    requires Accumulating(pc) && ClassOf(h) > ClassOf(pc.k) && m.queues[h] != []
    ensures var f := AccumulateNext(c, m, {}, stop, ch, pc);
            f.Formed? && Accumulating(f.pc) ==> f.pc.k == pc.k && f.m.queues[h] != []
  {
  }

  /** The batcher's step inside accumulate. */
  lemma InsideStep(c: Config, s: State, ch: Choice, s': State)
    requires Control(s) && Accumulating(s.pc) && Accumulating(s'.pc) && Step(c, s, Batcher(ch), s')
    ensures FormStep(s, AccumulateNext(c, s.m, {}, StopSignal(s.flags), ch, s.pc), s')
  {
    hide RunStep, FormNext, AccumulateNext;
    if RunStep(c, s, ch, s') { RunProgress(c, s, ch, s'); }
  }

  /** Nobody but the batcher takes from a queue, or moves its position, while it accumulates. */
  lemma OutsideStep(c: Config, s: State, a: Action, s': State)
    requires Control(s) && Accumulating(s.pc) && Step(c, s, a, s') && !a.Batcher?
    ensures s'.pc == s.pc && Grown(s.m.queues, s'.m.queues)
  {
    hide SubmitterStep, DrainerStep, WorkerStep, StopperStep;
    match a
    case Submitter(r) => SubmitterMoves(c, s, r, s'); SubmitterFrame(c, s, r, s');
    case DrainerTurn(i) => DrainerOn(s, i, s');
    case StopperTurn(i) => StopperFrame(s, i, s');
    case WorkerTurn(w, ch) => WorkerFrame(s, w, ch, s');
    case _ =>
  }

  /** Once its turn began with a higher-class request queued, accumulate starts no further DrainFrom. */
  lemma {:induction false} NoFurtherDrainFrom(c: Config, states: seq<State>, actions: seq<Action>,
                                              i: nat, j: nat, h: Rank)
    requires Run(c, states, actions) && Throughout(states, i, j, Accumulating) && LastTurn(states[i].pc, h)
    ensures DrainFroms(states, actions, i, j) == 0
    decreases j - i
  {
    if i < j {
      var s, s' := states[i], states[i + 1];
      InvRun(c, states, actions, i);
      LastTurnKept(c, s, actions[i], s', h);
      hide Inv;
      NoFurtherDrainFrom(c, states, actions, i + 1, j, h);
    }
  }

  lemma LastTurnKept(c: Config, s: State, a: Action, s': State, h: Rank)
    requires Inv(c, s) && Step(c, s, a, s') && Accumulating(s'.pc)
    requires Accumulating(s.pc) && ClassOf(h) > ClassOf(s.pc.k)
    requires LastTurn(s.pc, h) || (s.pc.AccTop? && s.m.queues[h] != [] && a.Batcher?)
    ensures LastTurn(s'.pc, h)
  {
    hide Step, Shape, Lock, Busy, Ending, Ledger, Wake, Pulls, Faithful, AccumulateNext;
    if a.Batcher? {
      InsideStep(c, s, a.ch, s');
      LastTurnForm(c, s.m, StopSignal(s.flags), a.ch, s.pc, h);
    } else {
      OutsideStep(c, s, a, s');
    }
  }

  /** Once a request of a higher class is queued, accumulate starts at most one more DrainFrom before it returns. */
  lemma {:induction false} PreemptionIsPrompt(c: Config, states: seq<State>, actions: seq<Action>,
                                              i: nat, j: nat, h: Rank)
    requires Run(c, states, actions) && Throughout(states, i, j, Accumulating)
    requires ClassOf(h) > ClassOf(states[i].pc.k) && states[i].m.queues[h] != []
    ensures DrainFroms(states, actions, i, j) <= 1
    decreases j - i
  {
    if i < j {
      var s, s' := states[i], states[i + 1];
      InvRun(c, states, actions, i);
      if actions[i].Batcher? && s.pc.AccTop? {
        LastTurnKept(c, s, actions[i], s', h);
        hide Inv;
        NoFurtherDrainFrom(c, states, actions, i + 1, j, h);
      } else {
        HigherKept(c, s, actions[i], s', h);
        hide Inv;
        PreemptionIsPrompt(c, states, actions, i + 1, j, h);
      }
    }
  }

  lemma HigherKept(c: Config, s: State, a: Action, s': State, h: Rank)
    requires Inv(c, s) && Step(c, s, a, s') && Accumulating(s.pc) && Accumulating(s'.pc)
    requires ClassOf(h) > ClassOf(s.pc.k) && s.m.queues[h] != []
    ensures s'.pc.k == s.pc.k && s'.m.queues[h] != []
  {
    hide Step, Shape, Lock, Busy, Ending, Timely, Faithful, AccumulateNext;
    if a.Batcher? {
      InsideStep(c, s, a.ch, s');
      HigherStays(c, s.m, StopSignal(s.flags), a.ch, s.pc, h);
    } else {
      OutsideStep(c, s, a, s');
    }
  }

  // ----- Batch formation ends -----

  function BatcherTurns(actions: seq<Action>, i: nat, j: nat): nat
    requires i <= j <= |actions|
    decreases j - i
  {
    if i == j then 0 else (if actions[i].Batcher? then 1 else 0) + BatcherTurns(actions, i + 1, j)
  }

  lemma {:induction false} TurnsSpendVariant(c: Config, states: seq<State>, actions: seq<Action>, i: nat, j: nat)
    requires Run(c, states, actions) && Throughout(states, i, j, InBatch)
    ensures BatcherTurns(actions, i, j) <= Variant(c, states[i]) - Variant(c, states[j])
    decreases j - i
  {
    InvRun(c, states, actions, i);
    if i < j {
      SubmittersSeen(states[i]);
      VariantStep(c, states[i], actions[i], states[i + 1]);
      hide Inv, Variant;
      TurnsSpendVariant(c, states, actions, i + 1, j);
    }
  }

  /**
   However its submitters are scheduled, and even if its timer never fires, formBatch, once woken, takes at most a
   number of batcher steps before it returns that is fixed by the batch size, the matrix's capacity and the submitters
   in flight when it woke.
   */
  lemma FormBatchEnds(c: Config, states: seq<State>, actions: seq<Action>, i: nat, j: nat)
    requires Run(c, states, actions) && Throughout(states, i, j, InBatch)
    ensures BatcherTurns(actions, i, j)
            <= 45 * (5 * c.maxBatch + 4 * CELLS * c.perQueue
                     + 3 * |PushedSet(states[i].subs)| + 2 * |AddedSet(states[i].subs)| + 1) + 196
  {
    TurnsSpendVariant(c, states, actions, i, j);
    InvRun(c, states, actions, j);
    VariantBounded(c, states[j]);
    hide Run, TotalLen, Throughout, Inv;
  }

  /** The same for accumulate, from any point inside it. */
  lemma AccumulateEnds(c: Config, states: seq<State>, actions: seq<Action>, i: nat, j: nat)
    requires Run(c, states, actions) && Throughout(states, i, j, Accumulating)
    ensures BatcherTurns(actions, i, j)
            <= 45 * (5 * c.maxBatch + 4 * CELLS * c.perQueue
                     + 3 * |PushedSet(states[i].subs)| + 2 * |AddedSet(states[i].subs)| + 1) + 44
  {
    TurnsSpendVariant(c, states, actions, i, j);
    InvRun(c, states, actions, j);
    VariantBounded(c, states[j]);
    assert Accumulating(states[i].pc);
    hide Run, TotalLen, Throughout, Inv;
  }

  /** Every drainSubqueue call of the batcher returns: its loop takes no more turns than it has room. */
  lemma {:induction false} ReceiveEnds(c: Config, states: seq<State>, actions: seq<Action>, i: nat, j: nat)
    requires Run(c, states, actions) && Throughout(states, i, j, Receiving)
    ensures BatcherTurns(actions, i, j) <= Room(c, states[i].pc)
    decreases j - i
  {
    InvRun(c, states, actions, i);
    if i < j {
      RoomStep(c, states[i], actions[i], states[i + 1]);
      hide Inv, Room, Step;
      ReceiveEnds(c, states, actions, i + 1, j);
    }
  }

  // ----- Shutdown -----

  /**
   Once the stop signal is given, and until the batcher's goroutine has closed the batch channels, some step of the
   batcher, of a drainer, or of a submitter that holds the read lock is enabled and changes the state.
   */
  lemma ShutdownNeverStuck(c: Config, states: seq<State>, actions: seq<Action>, i: nat)
    requires Run(c, states, actions) && i < |states| && StopSignal(states[i].flags) && !states[i].pc.Gone?
    ensures exists a, s' :: Pushes(states[i], a) && Step(c, states[i], a, s') && s' != states[i]
  {
    InvRun(c, states, actions, i);
    hide Init, Shape, Control, Lock, Busy, Ending, Timely, Faithful, Accounts, Step;
    SomebodyCan(c, states[i]);
  }

  function TurnsTaken(actions: seq<Action>, i: nat, j: nat, a: Action): nat
    requires i <= j <= |actions|
    decreases j - i
  {
    if i == j then 0 else (if actions[i] == a then 1 else 0) + TurnsTaken(actions, i + 1, j, a)
  }

  /** Goroutine d is in DrainAll from position i to j. */
  ghost predicate InSweep(states: seq<State>, i: nat, j: nat, d: nat) {
    i <= j < |states| && forall m :: i <= m <= j ==> d < |states[m].drains| && states[m].drains[d].pc.Sweep?
  }

  lemma {:induction false} SweepProgress(c: Config, states: seq<State>, actions: seq<Action>, i: nat, j: nat, d: nat)
    requires Run(c, states, actions) && InSweep(states, i, j, d)
    ensures Behind(states[j].drains[d].pc) - Behind(states[i].drains[d].pc)
            == TurnsTaken(actions, i, j, DrainerTurn(d))
    ensures |states[j].drains[d].pc.out| - |states[i].drains[d].pc.out|
            <= |states[j].logs.received| - |states[i].logs.received|
    decreases j - i
  {
    if i < j {
      SweepOnce(c, states, actions, i, d);
      hide Run, Behind;
      SweepProgress(c, states, actions, i + 1, j, d);
    }
  }

  lemma SweepOnce(c: Config, states: seq<State>, actions: seq<Action>, i: nat, d: nat)
    requires Run(c, states, actions) && InSweep(states, i, i + 1, d)
    ensures Behind(states[i + 1].drains[d].pc)
            == Behind(states[i].drains[d].pc) + if actions[i] == DrainerTurn(d) then 1 else 0
    ensures |states[i + 1].drains[d].pc.out| - |states[i].drains[d].pc.out|
            <= |states[i + 1].logs.received| - |states[i].logs.received|
  {
    InvRun(c, states, actions, i);
    InvRun(c, states, actions, i + 1);
    hide Init, Step, Lock, Busy, Ending, Timely, Faithful, Accounts, Behind;
    SameDrains(c, states, actions, i);
    SweepTurn(c, states[i], actions[i], states[i + 1], d);
  }

  lemma SameDrains(c: Config, states: seq<State>, actions: seq<Action>, i: nat)
    requires Run(c, states, actions) && i + 1 < |states|
    ensures |states[i + 1].drains| == |states[i].drains|
  {
    hide BatcherStep, SubmitterStep, DrainerStep, WorkerStep, StopperStep;
    var s, s' := states[i], states[i + 1];
    match actions[i]
    case Batcher(ch) => BatcherDrains(c, s, ch, s');
    case DrainerTurn(m) => DrainerGate(s, m, s');
    case StopperTurn(m) => StopperDrains(s, m, s');
    case Submitter(r) => SubmitterFrame(c, s, r, s');
    case WorkerTurn(w, ch) => WorkerFrame(s, w, ch, s');
    case _ =>
  }

  lemma BatcherDrains(c: Config, s: State, ch: Choice, s': State)
    requires BatcherStep(c, s, ch, s')
    ensures |s'.drains| == |s.drains|
  {
    hide FormNext, AccumulateNext;
    if RunStep(c, s, ch, s') { RunFrame(c, s, ch, s'); }
  }

  lemma StopperDrains(s: State, i: nat, s': State)
    requires StopperStep(s, i, s')
    ensures |s'.drains| == |s.drains|
  {
  }

  /** A DrainAll takes at most one turn for each sub-queue and one for each request received while it runs. */
  lemma SweepEnds(c: Config, states: seq<State>, actions: seq<Action>, i: nat, j: nat, d: nat)
    requires Run(c, states, actions) && InSweep(states, i, j, d)
    ensures TurnsTaken(actions, i, j, DrainerTurn(d))
            <= CELLS + |states[j].logs.received| - |states[i].logs.received|
  {
    SweepProgress(c, states, actions, i, j, d);
    InvRun(c, states, actions, j);
    hide Run, Safe, Timely, Accounts, FifoOk, Flow, DrainedAll, Exact;
    assert DrainerTrue(c, states[j].logs, states[j].drains[d]);
  }

  /** Before a stop signal nobody is told that the server is shutting down, nobody drains, and the matrix is open. */
  lemma NothingBeforeStop(c: Config, states: seq<State>, actions: seq<Action>, i: nat, r: Request)
    requires Run(c, states, actions) && i < |states| && !StopSignal(states[i].flags)
    ensures (r, ShuttingDown) !in states[i].box.retired && AllOff(states[i]) && !states[i].gate.closed
    ensures !states[i].pc.Failing? && !states[i].pc.Draining? && !Stopped(states[i].pc)
  {
    InvRun(c, states, actions, i);
    hide Run, Shape, Lock, Busy, Timely, Faithful, Accounts;
  }

  /** When Close has returned all 48 sub-queues are closed; when Start's goroutine is gone, the batch channels too. */
  lemma ClosedCompletely(c: Config, states: seq<State>, actions: seq<Action>, i: nat, k: Rank, cl: nat)
    requires Run(c, states, actions) && i < |states| && cl < PRIORITIES
    ensures (exists d :: 0 <= d < |states[i].drains| && states[i].drains[d].pc.Finished?) ==>
      states[i].gate.closed && k in states[i].gate.shut
    ensures states[i].pc.Gone? ==> cl in states[i].chans.closed && states[i].gate.closed
  {
    InvRun(c, states, actions, i);
    hide Run, Shape, Control, Busy, Timely, Faithful, Accounts, Early, ShutUpTo;
    var s := states[i];
    if d :| 0 <= d < |s.drains| && s.drains[d].pc.Finished? {
      assert DrainerOk(s.drains[d].pc, s.gate);
      CloseOrderAll(s.gate, k);
    }
  }

  /** A DrainAll that is done leaves depth at zero at that moment. */
  lemma SweepResets(c: Config, states: seq<State>, actions: seq<Action>, i: nat, d: nat)
    requires Run(c, states, actions) && i < |actions| && d < |states[i].drains| && d < |states[i + 1].drains|
    requires states[i].drains[d].pc.Sweep? && actions[i] == DrainerTurn(d) && !states[i + 1].drains[d].pc.Sweep?
    ensures states[i].drains[d].pc.k >= CELLS && states[i + 1].m.depth == 0
    ensures states[i + 1].drains[d].pc == Notify(states[i].drains[d].pc.out)
  {
    assert DrainerStep(states[i], d, states[i + 1]);
  }

  /** An accepted request was seen. */
  lemma AcceptedSeen(c: Config, states: seq<State>, actions: seq<Action>, i: nat, r: Request)
    requires Run(c, states, actions) && i < |states| && r in states[i].logs.accepted
    ensures r in states[i].logs.seen
  {
    InvRun(c, states, actions, i);
    hide Run, Safe, Timely, Accounts, FifoOk, Flow, Shutdown;
    assert Once(states[i], r);
    CountIn(states[i].logs.accepted, r);
  }

  /** The drainer has notified all it swept, and nobody holds drained requests. */
  ghost predicate Told(s: State, i: nat) {
    i < |s.drains| && !s.drains[i].pc.Off? && !s.drains[i].pc.Sweep?
    && forall m :: 0 <= m < |s.drains| ==> DrainHand(s.drains[m]) == []
  }

  /** Every request queued when a drain began gets exactly one outcome, and it is the shutdown notice. */
  lemma QueuedAreTold(c: Config, states: seq<State>, actions: seq<Action>, n: nat, i: nat, j: Rank, r: Request)
    requires Run(c, states, actions) && n < |states| && Told(states[n], i) && r in states[n].drains[i].start[j]
    ensures (r, ShuttingDown) in states[n].box.retired && Retired(states[n].box.retired, r) == 1
  {
    InvRun(c, states, actions, n);
    hide Run, Safe, Timely, FifoOk, Flow, Exact, DrainHand;
    var s := states[n];
    assert DrainerTrue(c, s.logs, s.drains[i]) && Once(s, r) && Drained1(s, r);
    SweptIsReceived(c, s.logs, s.drains[i], j, r);
    GatherEmpty(DrainHand, s.drains, r);
    CountIn(Since(s.logs), r);
    hide Since;
    LeftOnce(s.box.retired, r, ShuttingDown);
  }

  lemma SweptIsReceived(c: Config, l: Logs, d: Drainer, j: Rank, r: Request)
    requires DrainerTrue(c, l, d) && Passed(d.pc) == CELLS && !d.pc.Off? && r in d.start[j]
    ensures r in Since(l)
  {
    assert Cleared(c, l, d, j) && Started(c, l, d, j);
    assert l.received == l.received[..l.drainMark] + l.received[l.drainMark..];
  }

  lemma {:induction false} LeftOnce(retired: seq<(Request, Outcome)>, r: Request, o: Outcome)
    ensures (r, o) in retired ==> Retired(retired, r) >= 1
  {
    if retired != [] {
      var n := |retired| - 1;
      LeftOnce(retired[..n], r, o);
      assert retired == retired[..n] + [retired[n]];
      CountSnoc([], retired[n].0, r);
      assert [] + [retired[n].0] == Left(retired[n]);
    }
  }

  /**
   What is left in a sub-queue is the tail of what was accepted for it after a drainer left it; when every drainer
   that began has left it, exactly what was accepted after the last of them did.
   */
  lemma LeftBehind(c: Config, states: seq<State>, actions: seq<Action>, n: nat, i: nat, j: Rank, r: Request)
    requires Run(c, states, actions) && n < |states| && i < |states[n].drains|
    requires !states[n].drains[i].pc.Off? && j < |states[n].drains[i].passed|
    ensures var s := states[n]; var at := s.drains[i].passed[j];
            at <= |s.logs.accepted|
            && IsTail(s.m.queues[j], Select(c.route, s.logs.accepted[at..], j))
            && (r in s.m.queues[j] ==> r !in s.logs.accepted[..at])
            && (LatestPass(s.drains, j, at) ==> s.m.queues[j] == Select(c.route, s.logs.accepted[at..], j))
            && (at == |s.logs.accepted| ==> s.m.queues[j] == [])
  {
    InvRun(c, states, actions, n);
    hide Run, Control, Lock, Busy, Ending, Timely, Flow, DrainedAll, LatestPass, Accounts;
    var s := states[n];
    assert DrainerTrue(c, s.logs, s.drains[i]);
    LeftAfter(c, s, s.drains[i], j);
    if r in s.m.queues[j] {
      QueuedIsUnreceived(c, s, j, r);
      LeftNotBefore(c, s, s.drains[i], j, r);
    }
    if LatestPass(s.drains, j, s.drains[i].passed[j]) { LeftExactly(c, s, j, s.drains[i].passed[j]); }
  }

  ghost predicate IsTail(t: seq<Request>, s: seq<Request>) {
    |t| <= |s| && s[|s| - |t|..] == t
  }

  /** Once some drain began and every drain that began has left sub-queue j, there is a latest pass. */
  lemma SomeLatestPass(drains: seq<Drainer>, j: Rank) returns (i: nat)
    requires exists m :: 0 <= m < |drains| && !drains[m].pc.Off?
    requires forall m :: 0 <= m < |drains| && !drains[m].pc.Off? ==> j < |drains[m].passed|
    ensures i < |drains| && !drains[i].pc.Off? && LatestPass(drains, j, drains[i].passed[j])
  {
    i :| i < |drains| && !drains[i].pc.Off?;
    for m := 0 to |drains|
      invariant i < |drains| && !drains[i].pc.Off?
      invariant forall n :: 0 <= n < m && !drains[n].pc.Off? ==> drains[n].passed[j] <= drains[i].passed[j]
    {
      if !drains[m].pc.Off? && drains[m].passed[j] > drains[i].passed[j] { i := m; }
    }
  }

  lemma LeftAfter(c: Config, s: State, d: Drainer, j: Rank)
    requires FifoOk(c, s) && DrainerTrue(c, s.logs, d) && !d.pc.Off? && j < |d.passed|
    ensures d.passed[j] <= |s.logs.accepted|
    ensures IsTail(s.m.queues[j], Select(c.route, s.logs.accepted[d.passed[j]..], j))
    ensures d.passed[j] == |s.logs.accepted| ==> s.m.queues[j] == []
  {
    assert Cleared(c, s.logs, d, j);
    var before, after := s.logs.accepted[..d.passed[j]], s.logs.accepted[d.passed[j]..];
    assert s.logs.accepted == before + after;
    SelectAppend(c.route, before, after, j);
    var gone, left := Select(c.route, before, j), Select(c.route, after, j);
    var got, q := Select(c.route, s.logs.received, j), s.m.queues[j];
    assert gone + left == got + q && gone <= got;
    assert left[|left| - |q|..] == (gone + left)[|got|..] == q;
  }

  lemma LeftNotBefore(c: Config, s: State, d: Drainer, j: Rank, r: Request)
    requires DrainerTrue(c, s.logs, d) && !d.pc.Off? && j < |d.passed| && c.route(r) == j && r !in s.logs.received
    requires d.passed[j] <= |s.logs.accepted|
    ensures r !in s.logs.accepted[..d.passed[j]]
  {
    assert Cleared(c, s.logs, d, j);
    SelectMember(c.route, s.logs.accepted[..d.passed[j]], j);
    SelectMember(c.route, s.logs.received, j);
  }

  lemma LeftExactly(c: Config, s: State, j: Rank, a: nat)
    requires FifoOk(c, s) && Exact(c, s) && LatestPass(s.drains, j, a)
    ensures a <= |s.logs.accepted| && s.m.queues[j] == Select(c.route, s.logs.accepted[a..], j)
  {
    hide LatestPass;
    assert ExactAt(c, s.logs, j, a);
    var before, after := s.logs.accepted[..a], s.logs.accepted[a..];
    assert s.logs.accepted == before + after;
    SelectAppend(c.route, before, after, j);
    var gone, left := Select(c.route, before, j), Select(c.route, after, j);
    assert gone + left == gone + s.m.queues[j];
    assert left == (gone + left)[|gone|..] && s.m.queues[j] == (gone + s.m.queues[j])[|gone|..];
  }

  /**
   Once the run loop has returned and every DrainAll that began is over, the sub-queues never change again, and a
   request still queued has no outcome, then or at any later point of the run.
   */
  lemma QueuedForGood(c: Config, states: seq<State>, actions: seq<Action>, i: nat, j: nat,
                      k: Rank, r: Request, o: Outcome)
    requires Run(c, states, actions) && i <= j < |states| && Over(states[i])
    ensures states[j].m.queues == states[i].m.queues
    ensures r in states[i].m.queues[k] ==> (r, o) !in states[j].box.retired
  {
    OverForGood(c, states, actions, i, j);
    InvRun(c, states, actions, j);
    hide Run, Safe, Timely, Accounts, Over, FifoOk, Flow, Shutdown;
    if r in states[i].m.queues[k] {
      assert Once(states[j], r);
      QueuedUntold(states[j], k, r, o);
    }
  }

  lemma {:induction false} OverForGood(c: Config, states: seq<State>, actions: seq<Action>, i: nat, j: nat)
    requires Run(c, states, actions) && i <= j < |states| && Over(states[i])
    ensures Over(states[j]) && states[j].m.queues == states[i].m.queues
    decreases j
  {
    hide Over, Run;
    if i < j {
      OverForGood(c, states, actions, i, j - 1);
      OverOnce(c, states, actions, j - 1);
    }
  }

  lemma OverOnce(c: Config, states: seq<State>, actions: seq<Action>, i: nat)
    requires Run(c, states, actions) && i + 1 < |states| && Over(states[i])
    ensures Over(states[i + 1]) && states[i + 1].m.queues == states[i].m.queues
  {
    hide Step, Init, Shape, Control, Lock, Busy, Ending, Timely, Faithful, Accounts, Over;
    InvRun(c, states, actions, i);
    OverStep(c, states[i], actions[i], states[i + 1]);
  }

  lemma QueuedUntold(s: State, k: Rank, r: Request, o: Outcome)
    requires Once(s, r) && r in s.m.queues[k]
    ensures (r, o) !in s.box.retired
  {
    GatherUpdate(Queued, s.m.queues, k, [], r);
    CountIn(s.m.queues[k], r);
    CountIn(s.logs.accepted, r);
    LeftOnce(s.box.retired, r, o);
  }

  /** Once the matrix is closed no submission is accepted again. */
  lemma {:induction false} ClosedRefuses(c: Config, states: seq<State>, actions: seq<Action>, i: nat, j: nat)
    requires Run(c, states, actions) && i <= j < |states| && states[i].gate.closed
    ensures states[j].gate.closed && states[j].logs.accepted == states[i].logs.accepted
    decreases j - i
  {
    hide Run;
    if i < j {
      ClosedOnce(c, states, actions, i);
      ClosedRefuses(c, states, actions, i + 1, j);
    }
  }

  lemma ClosedOnce(c: Config, states: seq<State>, actions: seq<Action>, i: nat)
    requires Run(c, states, actions) && i + 1 < |states| && states[i].gate.closed
    ensures states[i + 1].gate.closed && states[i + 1].logs.accepted == states[i].logs.accepted
  {
    hide Step, Init, Lock, Busy, Ending, Shape, Control, Timely, Faithful;
    InvRun(c, states, actions, i);
    ClosedStep(c, states[i], actions[i], states[i + 1]);
  }

  lemma ClosedStep(c: Config, s: State, a: Action, s': State)
    requires Lock(s) && Step(c, s, a, s') && s.gate.closed
    ensures s'.gate.closed && s'.logs.accepted == s.logs.accepted
  {
    hide BatcherStep, SubmitterStep, DrainerStep, WorkerStep, StopperStep;
    match a
    case Submitter(r) => SubmitterMoves(c, s, r, s'); SubmitterFrame(c, s, r, s');
    case Batcher(ch) => if RunStep(c, s, ch, s') { RunFrame(c, s, ch, s'); } else { FormMoves(c, s, ch, s'); }
    case DrainerTurn(i) => DrainMoves(s, i, s'); GateStays(s, i, s');
    case StopperTurn(i) => StopperFrame(s, i, s'); StopperLogs(s, i, s');
    case WorkerTurn(w, ch) => WorkerFrame(s, w, ch, s');
    case _ =>
  }

  lemma GateStays(s: State, i: nat, s': State)
    requires DrainerStep(s, i, s') && s.gate.closed
    ensures s'.gate.closed
  {
  }

  lemma StopperLogs(s: State, i: nat, s': State)
    requires StopperStep(s, i, s')
    ensures s'.logs.accepted == s.logs.accepted
  {
  }
}
