/**
 The depth ledger and the wake token. The batcher re-arms its token from a depth counter that lags
 behind the queues; the ledger bounds the lag by the submitters in flight, and that is why no wake-up
 is ever lost.
 */
module PipelineWake {
  import opened Models
  import opened Pipeline
  import opened PipelineControl

  // ----- Sums over queues and drainers -----

  lemma {:induction false} TotalLenUpdate(q: seq<seq<Request>>, k: nat, x: seq<Request>)
    requires k < |q|
    ensures TotalLen(q[k := x]) == TotalLen(q) - |q[k]| + |x|
  {
    if k == 0 {
      assert q[k := x][1..] == q[1..];
    } else {
      assert q[k := x][1..] == q[1..][k - 1 := x];
      TotalLenUpdate(q[1..], k - 1, x);
    }
  }

  lemma {:induction false} TotalLenPositive(q: seq<seq<Request>>, k: nat)
    requires k < |q| && q[k] != []
    ensures TotalLen(q) > 0
  {
    if k > 0 { TotalLenPositive(q[1..], k - 1); }
  }

  function Held(p: DrainPc): nat {
    if p.Sweep? then |p.out| else 0
  }

  /** Requests taken out by a DrainAll that has not yet reset depth. */
  function Swept(ds: seq<Drainer>): nat {
    if ds == [] then 0 else Held(ds[0].pc) + Swept(ds[1..])
  }

  lemma {:induction false} SweptUpdate(ds: seq<Drainer>, i: nat, d: Drainer)
    requires i < |ds|
    ensures Swept(ds[i := d]) == Swept(ds) - Held(ds[i].pc) + Held(d.pc)
  {
    if i == 0 {
      assert ds[i := d][1..] == ds[1..];
    } else {
      assert ds[i := d][1..] == ds[1..][i - 1 := d];
      SweptUpdate(ds[1..], i - 1, d);
    }
  }

  lemma {:induction false} SweptOff(ds: seq<Drainer>)
    requires forall i :: 0 <= i < |ds| ==> ds[i].pc.Off?
    ensures Swept(ds) == 0
  {
    if ds != [] { SweptOff(ds[1..]); }
  }

  // ----- Ledger -----

  /** Until a DrainAll resets it, depth is what is queued, less what is not yet added, plus what is not subtracted. */
  ghost predicate Ledger(s: State) {
    !s.logs.zeroed ==>
      s.m.depth == TotalLen(s.m.queues) - |PushedSet(s.subs)| + Unsettled(s.pc) + Swept(s.drains)
  }

  lemma {:induction false} TotalLenEmpty(q: seq<seq<Request>>)
    requires forall k :: 0 <= k < |q| ==> q[k] == []
    ensures TotalLen(q) == 0
  {
    if q != [] { TotalLenEmpty(q[1..]); }
  }

  lemma LedgerInit(c: Config, s: State)
    requires Init(s)
    ensures Ledger(s)
  {
    TotalLenEmpty(s.m.queues);
    SweptOff(s.drains);
    assert PushedSet(s.subs) == {};
  }

  lemma LedgerForm(c: Config, m: Matrix, shut: set<nat>, stop: bool, ch: Choice, pc: Pc)
    requires Forming(pc)
    ensures var f := FormNext(c, m, shut, stop, ch, pc);
            f.Formed? ==>
              f.m.depth - TotalLen(f.m.queues) - Unsettled(f.pc) == m.depth - TotalLen(m.queues) - Unsettled(pc)
  {
    if pc.Recv? && m.queues[pc.k] != [] { TotalLenUpdate(m.queues, pc.k, m.queues[pc.k][1..]); }
  }

  lemma LedgerAccumulate(c: Config, m: Matrix, shut: set<nat>, stop: bool, ch: Choice, pc: Pc)
    requires Accumulating(pc)
    ensures var f := AccumulateNext(c, m, shut, stop, ch, pc);
            f.Formed? ==>
              f.m.depth - TotalLen(f.m.queues) - Unsettled(f.pc) == m.depth - TotalLen(m.queues) - Unsettled(pc)
  {
    if pc.AccRecv? && m.queues[pc.k] != [] { TotalLenUpdate(m.queues, pc.k, m.queues[pc.k][1..]); }
  }

  lemma LedgerBatcher(c: Config, s: State, ch: Choice, s': State)
    requires Control(s) && Ledger(s) && BatcherStep(c, s, ch, s')
    ensures Ledger(s')
  {
    hide RunStep, FormNext, AccumulateNext;
    if RunStep(c, s, ch, s') { LedgerRun(c, s, ch, s'); }
    else if Forming(s.pc) { LedgerForm(c, s.m, s.gate.shut, StopSignal(s.flags), ch, s.pc); }
    else { LedgerAccumulate(c, s.m, s.gate.shut, StopSignal(s.flags), ch, s.pc); }
  }

  lemma LedgerRun(c: Config, s: State, ch: Choice, s': State)
    requires Control(s) && Ledger(s) && RunStep(c, s, ch, s')
    ensures Ledger(s')
  {
    RunFrame(c, s, ch, s');
    RunProgress(c, s, ch, s');
    hide RunStep;
    if s'.drains != s.drains { SweptUpdate(s.drains, 0, s'.drains[0]); }
  }

  /** A submitter's step in numbers: a push, a depth increment, a signal, or nothing that counts. */
  lemma SubmitterCounts(c: Config, s: State, r: Request, s': State)
    requires SubmitterStep(c, s, r, s')
    ensures var p, p' := |PushedSet(s.subs)|, |PushedSet(s'.subs)|;
            var a, a' := |AddedSet(s.subs)|, |AddedSet(s'.subs)|;
            var t, t' := TotalLen(s.m.queues), TotalLen(s'.m.queues);
            || (p' == p + 1 && a' == a && t' == t + 1 && s'.m.depth == s.m.depth && s'.m.token == s.m.token)
            || (p' == p - 1 && a' == a + 1 && t' == t && s'.m.depth == s.m.depth + 1 && s'.m.token == s.m.token)
            || (p' == p && a' == a - 1 && t' == t && s'.m.depth == s.m.depth && s'.m.token)
            || (p' == p && a' == a && t' == t && s'.m.depth == s.m.depth && s'.m.token == s.m.token)
  {
    SetsMove(s.subs, r, s'.subs);
    if s.subs[r] == Checked && r in s'.subs && s'.subs[r] == Pushed {
      var k := c.route(r);
      TotalLenUpdate(s.m.queues, k, s.m.queues[k] + [r]);
    }
  }

  lemma SetsMove(subs: map<Request, SubPc>, r: Request, subs': map<Request, SubPc>)
    requires r in subs && (subs' == subs - {r} || (r in subs' && subs' == subs[r := subs'[r]]))
    ensures PushedSet(subs')
            == (if r in subs' && subs'[r] == Pushed then PushedSet(subs) + {r} else PushedSet(subs) - {r})
    ensures AddedSet(subs') == (if r in subs' && subs'[r] == Added then AddedSet(subs) + {r} else AddedSet(subs) - {r})
    ensures (r in PushedSet(subs) <==> subs[r] == Pushed) && (r in AddedSet(subs) <==> subs[r] == Added)
  {
  }

  lemma LedgerSubmitter(c: Config, s: State, r: Request, s': State)
    requires Ledger(s) && SubmitterStep(c, s, r, s')
    ensures Ledger(s')
  {
    SubmitterCounts(c, s, r, s');
    SubmitterFrame(c, s, r, s');
    hide SubmitterStep;
  }

  lemma LedgerStopper(s: State, i: nat, s': State)
    requires Control(s) && Ledger(s) && StopperStep(s, i, s')
    ensures Ledger(s')
  {
    if s'.drains != s.drains {
      assert StopperOk(s, i);
      SweptUpdate(s.drains, i + 1, s'.drains[i + 1]);
    }
  }

  lemma LedgerDrainer(s: State, i: nat, s': State)
    requires Ledger(s) && DrainerStep(s, i, s')
    ensures Ledger(s')
  {
    SweptUpdate(s.drains, i, s'.drains[i]);
    var p := s.drains[i].pc;
    if p.Sweep? && p.k < CELLS && s.m.queues[p.k] != [] {
      TotalLenUpdate(s.m.queues, p.k, s.m.queues[p.k][1..]);
    }
  }

  lemma LedgerStep(c: Config, s: State, a: Action, s': State)
    requires Control(s) && Ledger(s) && Step(c, s, a, s')
    requires s.subs.Keys <= s.logs.seen
    ensures Ledger(s')
  {
    hide BatcherStep, SubmitterStep, DrainerStep, WorkerStep, StopperStep;
    match a
    case Enter(r) => assert PushedSet(s'.subs) == PushedSet(s.subs);
    case Submitter(r) => LedgerSubmitter(c, s, r, s');
    case Batcher(ch) => LedgerBatcher(c, s, ch, s');
    case DrainerTurn(i) => LedgerDrainer(s, i, s');
    case StopperTurn(i) => LedgerStopper(s, i, s');
    case WorkerTurn(w, ch) => WorkerFrame(s, w, ch, s');
    case _ =>
  }

  // ----- Wake -----

  /** Sub-queues the batcher will not look at again before it waits hold something only if a wake-up is pending. */
  ghost predicate WakeAt(c: Config, q: Queues, hot: bool, pc: Pc) {
    match pc
    case NotStarted => forall k: Rank :: q[k] != [] ==> hot
    case Top => forall k: Rank :: q[k] != [] ==> hot
    case Wait => forall k: Rank :: q[k] != [] ==> hot
    case Dispatch(_, _) => forall k: Rank :: q[k] != [] ==> hot
    case AccSettle(k, reqs, got, _) => |reqs + got| < c.maxBatch && q[k] != [] ==> hot
    case AccFlush(k, _, _) => q[k] != [] ==> hot
    case AccHigher(k, _, j, _) => (q[k] != [] ==> hot) && HigherQuiet(q, k, j, hot)
    case AccPark(k, _, _) => (q[k] != [] ==> hot) && HigherQuiet(q, k, HigherCount(k), hot)
    case _ => true
  }

  ghost predicate HigherQuiet(q: Queues, k: Rank, n: nat, hot: bool) {
    forall i: nat :: i < n && i < HigherCount(k) ==> q[HigherCell(k, i)] != [] ==> hot
  }

  ghost predicate Wake(c: Config, s: State) {
    AllOff(s) ==> WakeAt(c, s.m.queues, Hot(s), s.pc)
  }

  lemma WakeInit(c: Config, s: State)
    requires Init(s)
    ensures Wake(c, s)
  {
  }

  /** Batch formation; `pushed` and `added` are the submitters in flight. */
  lemma WakeForm(c: Config, m: Matrix, shut: set<nat>, stop: bool, ch: Choice, pc: Pc,
                 pushed: set<Request>, added: set<Request>)
    requires Forming(pc) && shut == {}
    requires WakeAt(c, m.queues, m.token || pushed != {} || added != {}, pc)
    requires pc.Rearm? ==> m.depth == TotalLen(m.queues) - |pushed|
    ensures var f := FormNext(c, m, shut, stop, ch, pc);
            f.Formed? ==> WakeAt(c, f.m.queues, f.m.token || pushed != {} || added != {}, f.pc)
  {
    if pc.Rearm? {
      forall k: Rank | m.queues[k] != []
        ensures TotalLen(m.queues) > 0
      {
        TotalLenPositive(m.queues, k);
      }
    }
  }

  lemma WakeAccumulate(c: Config, m: Matrix, shut: set<nat>, stop: bool, ch: Choice, pc: Pc, inFlight: bool)
    requires Accumulating(pc) && shut == {}
    requires WakeAt(c, m.queues, m.token || inFlight, pc)
    ensures var f := AccumulateNext(c, m, shut, stop, ch, pc);
            f.Formed? ==> WakeAt(c, f.m.queues, f.m.token || inFlight, f.pc)
  {
  }

  lemma WakeBatcher(c: Config, s: State, ch: Choice, s': State)
    requires Control(s) && Ledger(s) && Wake(c, s) && BatcherStep(c, s, ch, s')
    ensures Wake(c, s')
  {
    hide FormNext, AccumulateNext, RunStep;
    var pushed, added := PushedSet(s.subs), AddedSet(s.subs);
    if RunStep(c, s, ch, s') { WakeRun(c, s, ch, s'); }
    else if AllOff(s) {
      SweptOff(s.drains);
      if Forming(s.pc) { WakeForm(c, s.m, s.gate.shut, StopSignal(s.flags), ch, s.pc, pushed, added); }
      else { WakeAccumulate(c, s.m, s.gate.shut, StopSignal(s.flags), ch, s.pc, pushed != {} || added != {}); }
    }
  }

  lemma WakeRun(c: Config, s: State, ch: Choice, s': State)
    requires Control(s) && Wake(c, s) && RunStep(c, s, ch, s')
    ensures Wake(c, s')
  {
    RunFrame(c, s, ch, s');
    RunProgress(c, s, ch, s');
    hide RunStep;
    if s'.drains != s.drains { assert !s'.drains[0].pc.Off?; }
  }

  /** More pending wake-ups and no more queued requests keep the claim. */
  lemma WakeMonotone(c: Config, q: Queues, hot: bool, q': Queues, hot': bool, pc: Pc)
    requires WakeAt(c, q, hot, pc) && (hot' || (q' == q && !hot))
    ensures WakeAt(c, q', hot', pc)
  {
  }

  lemma WakeSubmitter(c: Config, s: State, r: Request, s': State)
    requires Wake(c, s) && SubmitterStep(c, s, r, s')
    ensures Wake(c, s')
  {
    HotSubmitter(c, s, r, s');
    SubmitterFrame(c, s, r, s');
    hide SubmitterStep;
    if AllOff(s) { WakeMonotone(c, s.m.queues, Hot(s), s'.m.queues, Hot(s'), s.pc); }
  }

  /** A submitter only ever adds to what is pending, and does so when it pushes. */
  lemma HotSubmitter(c: Config, s: State, r: Request, s': State)
    requires SubmitterStep(c, s, r, s')
    ensures Hot(s') || (s'.m.queues == s.m.queues && !Hot(s))
  {
    assert forall x :: x != r ==> (x in PushedSet(s.subs) <==> x in PushedSet(s'.subs));
    assert forall x :: x != r ==> (x in AddedSet(s.subs) <==> x in AddedSet(s'.subs));
    if s.subs[r] == Pushed { assert r in AddedSet(s'.subs); }
    else if r in s'.subs && s'.subs[r] == Pushed { assert r in PushedSet(s'.subs); }
    else if !s'.m.token {
      assert PushedSet(s'.subs) == PushedSet(s.subs) && AddedSet(s'.subs) == AddedSet(s.subs);
    }
  }

  lemma WakeStep(c: Config, s: State, a: Action, s': State)
    requires Control(s) && Ledger(s) && Wake(c, s) && Step(c, s, a, s')
    requires s.subs.Keys <= s.logs.seen
    ensures Wake(c, s')
  {
    hide BatcherStep, SubmitterStep, DrainerStep, WorkerStep, StopperStep, WakeAt;
    match a
    case Enter(r) =>
      assert PushedSet(s'.subs) == PushedSet(s.subs) && AddedSet(s'.subs) == AddedSet(s.subs);
    case Submitter(r) => WakeSubmitter(c, s, r, s');
    case Batcher(ch) => WakeBatcher(c, s, ch, s');
    case DrainerTurn(i) => DrainerOn(s, i, s');
    case StopperTurn(i) => WakeStopper(c, s, i, s');
    case WorkerTurn(w, ch) => WorkerFrame(s, w, ch, s');
    case _ =>
  }

  lemma DrainerOn(s: State, i: nat, s': State)
    requires DrainerStep(s, i, s')
    ensures !AllOff(s) && !AllOff(s')
  {
    assert !s.drains[i].pc.Off? && !s'.drains[i].pc.Off?;
  }

  lemma WakeStopper(c: Config, s: State, i: nat, s': State)
    requires Wake(c, s) && StopperStep(s, i, s')
    ensures Wake(c, s')
  {
    if s'.drains != s.drains { assert !s'.drains[i + 1].pc.Off?; }
  }
}
