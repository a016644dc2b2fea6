/**
 Shutdown. Several goroutines may drain at once; what each of them has passed, everything received since
 the first of them began, and who has been told.
 */
module PipelineShutdown {
  import opened Models
  import opened Ordering
  import opened Pipeline
  import opened PipelineControl
  import opened PipelineFlow
  import opened PipelineConserve
  import opened PipelineWake
  import opened PipelineOrder

  // ----- What a drainer has passed -----

  function Passed(p: DrainPc): nat {
    match p
    case Off => 0
    case Sweep(k, _) => k
    case _ => CELLS
  }

  /** All that was accepted for a sub-queue before the drainer left it has been received by someone. */
  ghost predicate Cleared(c: Config, l: Logs, d: Drainer, j: Rank) {
    j < |d.passed| ==>
      d.passed[j] <= |l.accepted|
      && Select(c.route, l.accepted[..d.passed[j]], j) <= Select(c.route, l.received, j)
      && forall r :: r in d.start[j] ==> r in l.received
  }

  /** The queues when the drainer began: accepted, and received only after the first drainer began. */
  ghost predicate Started(c: Config, l: Logs, d: Drainer, j: Rank) {
    forall r :: r in d.start[j] ==>
      r in l.accepted && c.route(r) == j && l.drainMark <= |l.received| && r !in l.received[..l.drainMark]
  }

  ghost predicate DrainerTrue(c: Config, l: Logs, d: Drainer) {
    !d.pc.Off? ==>
      && |d.passed| == Passed(d.pc) <= CELLS
      && (forall j: Rank :: Cleared(c, l, d, j))
      && (forall j: Rank :: Started(c, l, d, j))
  }

  ghost predicate Sweeps(c: Config, s: State) {
    forall i :: 0 <= i < |s.drains| ==> DrainerTrue(c, s.logs, s.drains[i])
  }

  lemma SweepsInit(c: Config, s: State)
    requires Init(s)
    ensures Sweeps(c, s)
  {
  }

  /** Logs that have only grown at the end keep every claim about a drainer. */
  lemma DrainerKept(c: Config, l: Logs, l': Logs, d: Drainer)
    requires DrainerTrue(c, l, d) && l.accepted <= l'.accepted && l.received <= l'.received
    requires l'.drainMark == l.drainMark
    ensures DrainerTrue(c, l', d)
  {
    if !d.pc.Off? {
      forall j: Rank
        ensures Cleared(c, l', d, j) && Started(c, l', d, j)
      {
        assert Cleared(c, l, d, j) && Started(c, l, d, j);
        if j < |d.passed| { assert l'.accepted[..d.passed[j]] == l.accepted[..d.passed[j]]; }
        assert l.drainMark <= |l.received| ==> l'.received[..l.drainMark] == l.received[..l.drainMark];
        var more := l'.received[|l.received|..];
        assert l'.received == l.received + more;
        SelectAppend(c.route, l.received, more, j);
        assert forall r :: r in l.accepted ==> r in l'.accepted;
        assert forall r :: r in l.received ==> r in l'.received;
      }
    }
  }

  /** A drainer that finds sub-queue k empty has all of it behind. */
  lemma PassCleared(c: Config, s: State, d: Drainer, k: Rank)
    requires FifoOk(c, s) && s.m.queues[k] == [] && Started(c, s.logs, d, k) && |d.passed| == k
    ensures Cleared(c, s.logs, d.(passed := d.passed + [|s.logs.accepted|]), k)
  {
    var l := s.logs;
    assert l.accepted[..|l.accepted|] == l.accepted;
    assert Select(c.route, l.accepted, k) == Select(c.route, l.received, k) + [];
    SelectMember(c.route, l.accepted, k);
    SelectMember(c.route, l.received, k);
    forall r | r in d.start[k]
      ensures r in l.received
    {
      assert r in Select(c.route, l.accepted, k);
    }
  }

  lemma SweepsDrainer(c: Config, s: State, i: nat, s': State)
    requires Sweeps(c, s) && FifoOk(c, s) && DrainerStep(s, i, s')
    ensures Sweeps(c, s')
  {
    DrainMoves(s, i, s');
    forall m | 0 <= m < |s'.drains| && m != i
      ensures DrainerTrue(c, s'.logs, s'.drains[m])
    {
      DrainerKept(c, s.logs, s'.logs, s.drains[m]);
    }
    DrainerKept(c, s.logs, s'.logs, s.drains[i]);
    DrainerMoves(c, s, i, s');
  }

  lemma DrainerMoves(c: Config, s: State, i: nat, s': State)
    requires FifoOk(c, s) && DrainerStep(s, i, s')
    requires DrainerTrue(c, s.logs, s.drains[i]) && DrainerTrue(c, s'.logs, s.drains[i])
    ensures DrainerTrue(c, s'.logs, s'.drains[i])
  {
    var d, d' := s.drains[i], s'.drains[i];
    assert d'.start == d.start;
    if d.pc.Sweep? && d.pc.k < CELLS && s.m.queues[d.pc.k] == [] {
      var k: Rank := d.pc.k;
      assert Started(c, s.logs, d, k);
      PassCleared(c, s, d, k);
      forall j: Rank
        ensures Cleared(c, s'.logs, d', j) && Started(c, s'.logs, d', j)
      {
        assert Cleared(c, s.logs, d, j) && Started(c, s.logs, d, j);
      }
    } else {
      assert d'.passed == d.passed && Passed(d'.pc) == Passed(d.pc);
      forall j: Rank
        ensures Cleared(c, s'.logs, d', j) && Started(c, s'.logs, d', j)
      {
        assert Cleared(c, s'.logs, d, j) && Started(c, s'.logs, d, j);
      }
    }
  }

  // ----- Entering drain -----

  lemma {:induction false} CountSelect(c: Config, s: seq<Request>, k: int, x: Request)
    requires c.route(x) == k
    ensures Count(Select(c.route, s, k), x) == Count(s, x)
  {
    if s != [] {
      CountHead(s, x);
      CountSelect(c, s[1..], k, x);
      CountAppend(if c.route(s[0]) == k then [s[0]] else [], Select(c.route, s[1..], k), x);
      CountSnoc([], s[0], x);
      assert [] + [s[0]] == [s[0]];
    }
  }

  ghost predicate OnceAll(s: State) {
    forall x :: Once(s, x)
  }

  /** A queued request was accepted and has not been received. */
  lemma QueuedIsUnreceived(c: Config, s: State, j: Rank, r: Request)
    requires Shape(c, s) && FifoOk(c, s) && OnceAll(s) && r in s.m.queues[j]
    ensures r in s.logs.accepted && r !in s.logs.received && c.route(r) == j
  {
    assert Once(s, r);
    assert OfKey(c, j, s.m.queues[j]);
    CountSelect(c, s.logs.accepted, j, r);
    CountSelect(c, s.logs.received, j, r);
    assert Select(c.route, s.logs.accepted, j) == Select(c.route, s.logs.received, j) + s.m.queues[j];
    CountAppend(Select(c.route, s.logs.received, j), s.m.queues[j], r);
    CountIn(s.m.queues[j], r);
    CountIn(s.logs.accepted, r);
    CountIn(s.logs.received, r);
  }

  lemma SweepsBegin(c: Config, s: State, i: nat, s': State)
    requires Shape(c, s) && FifoOk(c, s) && OnceAll(s) && Sweeps(c, s) && i < |s.drains|
    requires !AllOff(s) ==> s.logs.drainMark <= |s.logs.received|
    requires BeginSweep(s, i, s'.drains, s'.logs)
    ensures Sweeps(c, s')
  {
    forall m | 0 <= m < |s'.drains|
      ensures DrainerTrue(c, s'.logs, s'.drains[m])
    {
      if m == i {
        forall j: Rank
          ensures Started(c, s'.logs, s'.drains[m], j)
        {
          forall r | r in s.m.queues[j]
            ensures r in s.logs.accepted && c.route(r) == j && r !in s.logs.received
          {
            QueuedIsUnreceived(c, s, j, r);
          }
        }
      } else {
        assert DrainerTrue(c, s.logs, s.drains[m]);
      }
    }
  }

  lemma SweepsGrow(c: Config, s: State, s': State)
    requires Sweeps(c, s) && s'.drains == s.drains && s.logs.accepted <= s'.logs.accepted
    requires s.logs.received <= s'.logs.received && s'.logs.drainMark == s.logs.drainMark
    ensures Sweeps(c, s')
  {
    forall m | 0 <= m < |s'.drains|
      ensures DrainerTrue(c, s'.logs, s'.drains[m])
    {
      DrainerKept(c, s.logs, s'.logs, s.drains[m]);
    }
  }

  // ----- The ledger of drained requests -----

  /** Requests received since the first drain began. */
  function Since(l: Logs): seq<Request> {
    if l.drainMark <= |l.received| then l.received[l.drainMark..] else []
  }

  /** Each of them is in some drainer's hands or has been told that the server is shutting down. */
  ghost predicate Drained1(s: State, x: Request) {
    && (AllOff(s) ==> Count(s.logs.notified, x) == 0 && InDrains(s.drains, x) == 0)
    && (!AllOff(s) ==> s.logs.drainMark <= |s.logs.received|
                       && Count(Since(s.logs), x) == InDrains(s.drains, x) + Count(s.logs.notified, x))
    && (Count(s.logs.notified, x) > 0 ==> (x, ShuttingDown) in s.box.retired)
  }

  ghost predicate DrainedAll(s: State) {
    forall x :: Drained1(s, x)
  }

  lemma DrainedInit(c: Config, s: State, x: Request)
    requires Init(s)
    ensures Drained1(s, x)
  {
    GatherEmpty(DrainHand, s.drains, x);
  }

  lemma DrainedFrame(s: State, s': State, x: Request)
    requires Drained1(s, x) && s'.drains == s.drains && s'.logs.notified == s.logs.notified
    requires AllOff(s) || (s'.logs.received == s.logs.received && s'.logs.drainMark == s.logs.drainMark)
    requires s.box.retired <= s'.box.retired
    ensures Drained1(s', x)
  {
  }

  lemma DrainedBegin(s: State, i: nat, s': State, x: Request)
    requires Drained1(s, x) && i < |s.drains| && s.drains[i].pc.Off? && BeginSweep(s, i, s'.drains, s'.logs)
    requires s'.box == s.box
    ensures Drained1(s', x)
  {
    GatherUpdate(DrainHand, s.drains, i, s'.drains[i], x);
    assert !s'.drains[i].pc.Off?;
    assert AllOff(s) ==> Since(s'.logs) == [];
  }

  lemma DrainedDrainer(s: State, i: nat, s': State, x: Request)
    requires Drained1(s, x) && DrainerStep(s, i, s')
    ensures Drained1(s', x)
  {
    DrainMoves(s, i, s');
    DrainerOn(s, i, s');
    var p := s.drains[i].pc;
    if p.Notify? && p.rest != [] { DrainedNotify(s, i, s', x); }
    else {
      DrainerKeeps(s, i, s');
      NotifiedKeeps(s, i, s');
      hide DrainerStep, AllOff, DrainHand;
      GatherUpdate(DrainHand, s.drains, i, s'.drains[i], x);
      if s'.m.queues != s.m.queues { DrainedReceive(s, i, s', x); }
    }
  }

  lemma DrainedReceive(s: State, i: nat, s': State, x: Request)
    requires i < |s.drains| && s.drains[i].pc.Sweep? && s.drains[i].pc.k < CELLS && s.m.queues[s.drains[i].pc.k] != []
    requires var p, r := s.drains[i].pc, s.m.queues[s.drains[i].pc.k][0];
             s'.logs == s.logs.(received := s.logs.received + [r])
             && s'.drains == s.drains[i := s.drains[i].(pc := Sweep(p.k, p.out + [r]))]
    ensures InDrains(s'.drains, x) - InDrains(s.drains, x) == One(s.m.queues[s.drains[i].pc.k][0], x)
    ensures s.logs.drainMark <= |s.logs.received| ==>
      Count(Since(s'.logs), x) - Count(Since(s.logs), x) == One(s.m.queues[s.drains[i].pc.k][0], x)
  {
    var p := s.drains[i].pc;
    var r := s.m.queues[p.k][0];
    hide Count, Gather;
    GatherUpdate(DrainHand, s.drains, i, s'.drains[i], x);
    CountSnoc(p.out, r, x);
    if s.logs.drainMark <= |s.logs.received| {
      SinceSnoc(s.logs, r);
      hide Since;
      CountSnoc(Since(s.logs), r, x);
    }
  }

  lemma SinceSnoc(l: Logs, r: Request)
    requires l.drainMark <= |l.received|
    ensures Since(l.(received := l.received + [r])) == Since(l) + [r]
  {
  }

  lemma DrainedNotify(s: State, i: nat, s': State, x: Request)
    requires Drained1(s, x) && DrainerStep(s, i, s') && s.drains[i].pc.Notify? && s.drains[i].pc.rest != []
    ensures Drained1(s', x)
  {
    var rest := s.drains[i].pc.rest;
    DrainerOn(s, i, s');
    GatherUpdate(DrainHand, s.drains, i, s'.drains[i], x);
    CountHead(rest, x);
    CountSnoc(s.logs.notified, rest[0], x);
    hide AllOff;
  }

  lemma NotifiedKeeps(s: State, i: nat, s': State)
    requires DrainerStep(s, i, s') && !(s.drains[i].pc.Notify? && s.drains[i].pc.rest != [])
    ensures s'.logs.notified == s.logs.notified
  {
  }

  // ----- The latest pass -----

  /** Every drainer that began has left sub-queue j, the last of them when a submissions had been accepted. */
  ghost predicate LatestPass(drains: seq<Drainer>, j: Rank, a: nat) {
    && (exists i :: 0 <= i < |drains| && !drains[i].pc.Off? && j < |drains[i].passed| && drains[i].passed[j] == a)
    && (forall i :: 0 <= i < |drains| && !drains[i].pc.Off? ==> j < |drains[i].passed| && drains[i].passed[j] <= a)
  }

  /** All that was accepted for j before the latest pass has been received, and nothing since. */
  ghost predicate ExactAt(c: Config, l: Logs, j: Rank, a: nat) {
    a <= |l.accepted| && Select(c.route, l.received, j) == Select(c.route, l.accepted[..a], j)
  }

  ghost predicate Exact(c: Config, s: State) {
    forall j: Rank, a: nat :: LatestPass(s.drains, j, a) ==> ExactAt(c, s.logs, j, a)
  }

  lemma ExactGrow(c: Config, s: State, s': State)
    requires Exact(c, s) && s'.drains == s.drains && s.logs.accepted <= s'.logs.accepted
    requires AllOff(s) || s'.logs.received == s.logs.received
    ensures Exact(c, s')
  {
    forall j: Rank, a: nat | LatestPass(s'.drains, j, a)
      ensures ExactAt(c, s'.logs, j, a)
    {
      assert ExactAt(c, s.logs, j, a);
      assert s'.logs.accepted[..a] == s.logs.accepted[..a];
    }
  }

  /** A goroutine that enters drain has passed nothing yet. */
  lemma ExactBegin(c: Config, s: State, i: nat, s': State)
    requires i < |s.drains| && BeginSweep(s, i, s'.drains, s'.logs)
    ensures Exact(c, s')
  {
    assert !s'.drains[i].pc.Off? && |s'.drains[i].passed| == 0;
  }

  lemma ExactDrainer(c: Config, s: State, i: nat, s': State)
    requires Shape(c, s) && FifoOk(c, s) && Sweeps(c, s) && Exact(c, s) && DrainerStep(s, i, s')
    ensures Exact(c, s')
  {
    DrainMoves(s, i, s');
    StaysOn(s, i, s');
    PassesOne(s, i, s');
    var d, d' := s.drains[i], s'.drains[i];
    assert DrainerTrue(c, s.logs, d);
    hide DrainerStep;
    forall j: Rank, a: nat | LatestPass(s'.drains, j, a)
      ensures ExactAt(c, s'.logs, j, a)
    {
      assert j < |d'.passed|;
      if j == |d.passed| { ExactPass(c, s, i, s', j, a); }
      else {
        SamePass(s, i, s', j, a);
        if s'.m.queues != s.m.queues { ExactReceive(c, s, d.pc.k, s', j, a); }
      }
    }
  }

  lemma StaysOn(s: State, i: nat, s': State)
    requires DrainerStep(s, i, s')
    ensures !s.drains[i].pc.Off? && |s'.drains| == |s.drains| && !s'.drains[i].pc.Off?
  {
  }

  /** A drainer's step marks at most the sub-queue it just found empty. */
  lemma PassesOne(s: State, i: nat, s': State)
    requires DrainerStep(s, i, s')
    ensures
      || s'.drains[i].passed == s.drains[i].passed
      || (var p := s.drains[i].pc;
          p.Sweep? && p.k < CELLS && s.m.queues[p.k] == [] && s'.m == s.m && s'.logs == s.logs
          && s'.drains[i].passed == s.drains[i].passed + [|s.logs.accepted|])
    ensures s'.m.queues != s.m.queues ==> s'.drains[i].passed == s.drains[i].passed
  {
  }

  /** What the mark of another sub-queue says is untouched. */
  lemma SamePass(s: State, i: nat, s': State, j: Rank, a: nat)
    requires i < |s.drains| == |s'.drains| && s'.drains == s.drains[i := s'.drains[i]] && LatestPass(s'.drains, j, a)
    requires !s.drains[i].pc.Off? && !s'.drains[i].pc.Off?
    requires j < |s.drains[i].passed| && s.drains[i].passed <= s'.drains[i].passed
    ensures LatestPass(s.drains, j, a)
  {
    var m :| 0 <= m < |s'.drains| && !s'.drains[m].pc.Off? && j < |s'.drains[m].passed| && s'.drains[m].passed[j] == a;
    assert !s.drains[m].pc.Off? && s.drains[m].passed[j] == a;
    forall n | 0 <= n < |s.drains| && !s.drains[n].pc.Off?
      ensures j < |s.drains[n].passed| && s.drains[n].passed[j] <= a
    {
      assert !s'.drains[n].pc.Off?;
    }
  }

  /** Nobody receives from a sub-queue that every drainer has left. */
  lemma ExactReceive(c: Config, s: State, k: Rank, s': State, j: Rank, a: nat)
    requires Shape(c, s) && Exact(c, s) && s.m.queues[k] != [] && j != k && LatestPass(s.drains, j, a)
    requires s'.logs == s.logs.(received := s.logs.received + [s.m.queues[k][0]])
    ensures ExactAt(c, s'.logs, j, a)
  {
    assert ExactAt(c, s.logs, j, a);
    HeadKey(c, s, k);
    SelectSnoc(c.route, s.logs.received, s.m.queues[k][0]);
  }

  /** The latest pass found the sub-queue empty. */
  lemma ExactPass(c: Config, s: State, i: nat, s': State, j: Rank, a: nat)
    requires FifoOk(c, s) && Sweeps(c, s) && i < |s.drains| == |s'.drains| && s'.drains == s.drains[i := s'.drains[i]]
    requires s'.logs == s.logs && s.m.queues[j] == [] && LatestPass(s'.drains, j, a)
    requires j == |s.drains[i].passed| && s'.drains[i].passed == s.drains[i].passed + [|s.logs.accepted|]
    requires !s'.drains[i].pc.Off?
    ensures ExactAt(c, s'.logs, j, a)
  {
    var m :| 0 <= m < |s'.drains| && !s'.drains[m].pc.Off? && j < |s'.drains[m].passed| && s'.drains[m].passed[j] == a;
    if m != i { assert DrainerTrue(c, s.logs, s.drains[m]) && Cleared(c, s.logs, s.drains[m], j); }
    assert s'.drains[i].passed[j] == |s.logs.accepted| && a == |s.logs.accepted|;
    assert s.logs.accepted[..a] == s.logs.accepted;
    assert Select(c.route, s.logs.accepted, j) == Select(c.route, s.logs.received, j) + [];
  }

  // ----- Together -----

  ghost predicate Shutdown(c: Config, s: State) {
    Sweeps(c, s) && DrainedAll(s) && Exact(c, s)
  }

  lemma ShutdownInit(c: Config, s: State)
    requires Init(s)
    ensures Shutdown(c, s)
  {
    SweepsInit(c, s);
    forall x
      ensures Drained1(s, x)
    {
      DrainedInit(c, s, x);
    }
  }

  /** A step that leaves the drainers alone. */
  lemma ShutdownFrame(c: Config, s: State, s': State)
    requires Shutdown(c, s) && s'.drains == s.drains
    requires s.logs.accepted <= s'.logs.accepted && s.logs.received <= s'.logs.received
    requires AllOff(s) || s'.logs.received == s.logs.received
    requires s'.logs.notified == s.logs.notified && s'.logs.drainMark == s.logs.drainMark
    requires s.box.retired <= s'.box.retired
    ensures Shutdown(c, s')
  {
    SweepsGrow(c, s, s');
    ExactGrow(c, s, s');
    forall x
      ensures Drained1(s', x)
    {
      assert Drained1(s, x);
      DrainedFrame(s, s', x);
    }
  }

  lemma ShutdownBegin(c: Config, s: State, i: nat, s': State)
    requires Shape(c, s) && FifoOk(c, s) && OnceAll(s) && Shutdown(c, s) && i < |s.drains| && s.drains[i].pc.Off?
    requires BeginSweep(s, i, s'.drains, s'.logs) && s'.box == s.box
    ensures Shutdown(c, s')
  {
    forall x
      ensures Drained1(s', x)
    {
      assert Drained1(s, x);
      DrainedBegin(s, i, s', x);
    }
    assert Drained1(s, Request(0, 0, "", 0));
    SweepsBegin(c, s, i, s');
    ExactBegin(c, s, i, s');
  }

  lemma ShutdownDrainer(c: Config, s: State, i: nat, s': State)
    requires Shape(c, s) && FifoOk(c, s) && Shutdown(c, s) && DrainerStep(s, i, s')
    ensures Shutdown(c, s')
  {
    SweepsDrainer(c, s, i, s');
    ExactDrainer(c, s, i, s');
    forall x
      ensures Drained1(s', x)
    {
      assert Drained1(s, x);
      DrainedDrainer(s, i, s', x);
    }
  }

  lemma ShutdownBatcher(c: Config, s: State, ch: Choice, s': State)
    requires Shape(c, s) && Control(s) && FifoOk(c, s) && OnceAll(s) && Shutdown(c, s) && BatcherStep(c, s, ch, s')
    ensures Shutdown(c, s')
  {
    hide RunStep, FormNext, AccumulateNext, Shape, FifoOk, OnceAll, Shutdown;
    if RunStep(c, s, ch, s') {
      RunFrame(c, s, ch, s');
      if !s.pc.Dispatch? { RunQuiet(c, s, ch, s'); } else { DispatchBox(c, s, ch, s'); }
      hide GiveUpStep;
      if s'.drains == s.drains { ShutdownFrame(c, s, s'); }
      else { ShutdownGiveUp(c, s, s'); }
    } else {
      FormMoves(c, s, ch, s');
      if s'.m.queues != s.m.queues { QuietReceive(s); }
      ShutdownFrame(c, s, s');
    }
  }

  /** Only a batcher with no drainer about receives. */
  lemma QuietReceive(s: State)
    requires Control(s) && (s.pc.Recv? || s.pc.AccRecv?)
    ensures AllOff(s)
  {
  }

  lemma DispatchBox(c: Config, s: State, ch: Choice, s': State)
    requires RunStep(c, s, ch, s') && s.pc.Dispatch?
    ensures s'.box == s.box
  {
  }

  lemma ShutdownGiveUp(c: Config, s: State, s': State)
    requires Shape(c, s) && Control(s) && FifoOk(c, s) && OnceAll(s) && Shutdown(c, s)
    requires GiveUpStep(s, s') && (s.pc.Top? || s.pc == Failing([]))
    ensures Shutdown(c, s')
  {
    ShutdownBegin(c, s, 0, s');
  }

  lemma ShutdownStopper(c: Config, s: State, i: nat, s': State)
    requires Shape(c, s) && Control(s) && FifoOk(c, s) && OnceAll(s) && Shutdown(c, s) && StopperStep(s, i, s')
    ensures Shutdown(c, s')
  {
    hide Shape, FifoOk, OnceAll, Shutdown;
    assert StopperOk(s, i);
    if s'.drains != s.drains { ShutdownBegin(c, s, i + 1, s'); }
    else {
      assert !BeginSweep(s, i + 1, s'.drains, s'.logs);
      ShutdownFrame(c, s, s');
    }
  }

  lemma ShutdownWorker(c: Config, s: State, w: nat, ch: WorkerChoice, s': State)
    requires Shutdown(c, s) && WorkerStep(s, w, ch, s')
    ensures Shutdown(c, s')
  {
    WorkerFrame(s, w, ch, s');
    assert s.box.retired <= s'.box.retired;
    hide WorkerStep, Shutdown;
    ShutdownFrame(c, s, s');
  }

  lemma ShutdownStep(c: Config, s: State, a: Action, s': State)
    requires Shape(c, s) && Control(s) && FifoOk(c, s) && OnceAll(s) && Shutdown(c, s) && Step(c, s, a, s')
    ensures Shutdown(c, s')
  {
    hide BatcherStep, SubmitterStep, DrainerStep, WorkerStep, StopperStep, Shutdown, Shape, Control, FifoOk, OnceAll;
    match a
    case Submitter(r) =>
      SubmitterFrame(c, s, r, s');
      SubmitterMoves(c, s, r, s');
      ShutdownFrame(c, s, s');
    case Batcher(ch) => ShutdownBatcher(c, s, ch, s');
    case DrainerTurn(i) => ShutdownDrainer(c, s, i, s');
    case StopperTurn(i) => ShutdownStopper(c, s, i, s');
    case WorkerTurn(w, ch) => ShutdownWorker(c, s, w, ch, s');
    case _ => ShutdownFrame(c, s, s');
  }

  // ----- After shutdown -----

  /** The run loop has returned and no DrainAll is under way. */
  ghost predicate Over(s: State) {
    Stopped(s.pc) && forall m :: 0 <= m < |s.drains| ==> !s.drains[m].pc.Sweep?
  }

  /** Then no step of anyone adds to a sub-queue or takes from one, and no drain begins. */
  lemma OverStep(c: Config, s: State, a: Action, s': State)
    requires Control(s) && Lock(s) && Over(s) && Step(c, s, a, s')
    ensures Over(s') && s'.m.queues == s.m.queues
  {
    hide BatcherStep, SubmitterStep, DrainerStep, WorkerStep, StopperStep;
    match a
    case Submitter(r) => OverSubmitter(c, s, r, s'); SubmitterFrame(c, s, r, s');
    case Batcher(ch) => OverBatcher(c, s, ch, s');
    case DrainerTurn(i) => OverDrainer(s, i, s');
    case StopperTurn(i) => StopperFrame(s, i, s'); OverStopper(s, i, s');
    case WorkerTurn(w, ch) => WorkerFrame(s, w, ch, s');
    case _ =>
  }

  lemma OverSubmitter(c: Config, s: State, r: Request, s': State)
    requires Lock(s) && Over(s) && SubmitterStep(c, s, r, s')
    ensures s'.m.queues == s.m.queues
  {
  }

  lemma OverBatcher(c: Config, s: State, ch: Choice, s': State)
    requires Stopped(s.pc) && BatcherStep(c, s, ch, s')
    ensures Stopped(s'.pc) && s'.m == s.m && s'.drains == s.drains
  {
    hide FormNext, AccumulateNext;
  }

  lemma OverDrainer(s: State, i: nat, s': State)
    requires Over(s) && DrainerStep(s, i, s')
    ensures Over(s') && s'.m == s.m
  {
    DrainMoves(s, i, s');
    assert !s'.drains[i].pc.Sweep?;
    hide DrainerStep;
    forall m | 0 <= m < |s'.drains|
      ensures !s'.drains[m].pc.Sweep?
    {
      if m != i { assert s'.drains[m] == s.drains[m]; }
    }
  }

  lemma OverStopper(s: State, i: nat, s': State)
    requires Control(s) && Stopped(s.pc) && StopperStep(s, i, s')
    ensures s'.drains == s.drains
  {
  }
}
