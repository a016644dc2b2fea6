/**
 The machine against the object: a drain, or a turn of accumulate, that nobody interrupts takes from the
 sub-queues what the methods of the queue matrix promise on the list of held requests.
 */
module PipelineSequential {
  import opened Models
  import opened Ordering
  import opened QueueMatrix
  import opened Pipeline
  import opened PipelineOrder

  /** One step of the batcher on an open matrix, no stop signal, no early flush. */
  function Alone(c: Config, m: Matrix, pc: Pc): Formed {
    if Forming(pc) then FormNext(c, m, {}, false, Go, pc) else AccumulateNext(c, m, {}, false, Go, pc)
  }

  /** n such steps in a row lead from (m, pc) to (m', pc'). */
  ghost predicate Reaches(c: Config, m: Matrix, pc: Pc, m': Matrix, pc': Pc, n: nat)
    decreases n
  {
    if n == 0 then m' == m && pc' == pc
    else var f := Alone(c, m, pc); f.Formed? && Reaches(c, f.m, f.pc, m', pc', n - 1)
  }

  ghost predicate Mirrors(c: Config, m: Matrix, held: seq<Request>) {
    forall k: Rank :: m.queues[k] == Select(c.route, held, k)
  }

  /** The matrix after the oldest n requests of sub-queue k are gone and accounted for. */
  function Taken(m: Matrix, k: Rank, n: nat): Matrix
    requires n <= |m.queues[k]|
  {
    m.(queues := m.queues[k := m.queues[k][n..]], depth := m.depth - n)
  }

  /** Such a step is a step of the machine, whatever its submitters, workers and stoppers are doing. */
  lemma AloneIsStep(c: Config, s: State)
    requires s.gate.shut == {} && !StopSignal(s.flags) && Alone(c, s.m, s.pc).Formed?
    requires Forming(s.pc) || Accumulating(s.pc)
    ensures var f := Alone(c, s.m, s.pc);
            Step(c, s, Batcher(Go), s.(m := f.m, logs := s.logs.(received := s.logs.received + f.got), pc := f.pc))
  {
    hide FormNext, AccumulateNext;
  }

  lemma {:induction false} Chain(c: Config, m: Matrix, pc: Pc, m1: Matrix, pc1: Pc, a: nat, m2: Matrix, pc2: Pc, b: nat)
    requires Reaches(c, m, pc, m1, pc1, a) && Reaches(c, m1, pc1, m2, pc2, b)
    ensures Reaches(c, m, pc, m2, pc2, a + b)
    decreases a
  {
    if a > 0 {
      var f := Alone(c, m, pc);
      Chain(c, f.m, f.pc, m1, pc1, a - 1, m2, pc2, b);
    }
  }

  lemma First(c: Config, m: Matrix, pc: Pc, got: seq<Request>, m1: Matrix, pc1: Pc, m2: Matrix, pc2: Pc, n: nat)
    requires Alone(c, m, pc) == Formed(m1, got, pc1) && Reaches(c, m1, pc1, m2, pc2, n)
    ensures Reaches(c, m, pc, m2, pc2, n + 1)
  {
    hide Alone;
  }

  lemma Once(c: Config, m: Matrix, pc: Pc, m': Matrix, pc': Pc)
    requires Alone(c, m, pc) == Formed(m', [], pc')
    ensures Reaches(c, m, pc, m', pc', 1)
  {
    hide Alone;
    assert Reaches(c, m', pc', m', pc', 0);
  }

  /** The queues after the oldest n requests of sub-queue k are received. */
  function Less(m: Matrix, k: Rank, n: nat): Matrix
    requires n <= |m.queues[k]|
  {
    m.(queues := m.queues[k := m.queues[k][n..]])
  }

  lemma LessPop(m: Matrix, k: Rank, got: seq<Request>, n: nat)
    requires 0 < n <= |m.queues[k]|
    ensures Less(Pop(m, k), k, n - 1) == Less(m, k, n)
    ensures got + [m.queues[k][0]] + Pop(m, k).queues[k][..n - 1] == got + m.queues[k][..n]
  {
    var q := m.queues[k];
    assert q[1..][n - 1..] == q[n..];
    assert m.queues[k := q[1..]][k := q[1..][n - 1..]] == m.queues[k := q[n..]];
    assert [q[0]] + q[1..][..n - 1] == q[..n];
  }

  lemma LessNone(m: Matrix, k: Rank, got: seq<Request>)
    ensures Less(m, k, 0) == m && got + m.queues[k][..0] == got
  {
    assert m.queues[k][0..] == m.queues[k] && m.queues[k := m.queues[k]] == m.queues;
  }

  // ----- Single steps -----

  lemma AtCall(c: Config, m: Matrix)
    ensures Alone(c, m, DrainCall) == Formed(m, [], Scan(0, m.queues))
  {
  }

  lemma AtScan(c: Config, m: Matrix, k: nat, snap: Queues)
    ensures Alone(c, m, Scan(k, snap)) ==
            Formed(m, [], if k >= CELLS then Rearm(0, [])
                          else if m.queues[k] == [] then Scan(k + 1, snap)
                          else Recv(k, [], snap))
  {
  }

  lemma AtSettle(c: Config, m: Matrix, k: Rank, n: nat, got: seq<Request>, snap: Queues)
    requires |got| == n <= |m.queues[k]|
    ensures Alone(c, Less(m, k, n), Settle(k, got, snap)) == Formed(Taken(m, k, n), [], FlushCheck(k, got))
  {
  }

  lemma AtAccSettle(c: Config, m: Matrix, k: Rank, reqs: seq<Request>, n: nat, got: seq<Request>, snap: Queues)
    requires |got| == n <= |m.queues[k]|
    ensures Alone(c, Less(m, k, n), AccSettle(k, reqs, got, snap)) ==
            Formed(Taken(m, k, n), [], if |reqs + got| >= c.maxBatch then Rearm(k, reqs + got)
                                       else AccFlush(k, reqs + got, snap))
  {
  }

  lemma AtTop(c: Config, m: Matrix, k: Rank, reqs: seq<Request>)
    requires |reqs| < c.maxBatch
    ensures Alone(c, m, AccTop(k, reqs)) ==
            Formed(m, [], if m.queues[k] == [] then AccFlush(k, reqs, m.queues) else AccRecv(k, reqs, [], m.queues))
  {
  }

  lemma AtHigher(c: Config, m: Matrix, k: Rank, reqs: seq<Request>, j: nat, snap: Queues)
    ensures Alone(c, m, AccHigher(k, reqs, j, snap)) ==
            Formed(m, [], if j >= HigherCount(k) then AccPark(k, reqs, snap)
                          else if m.queues[HigherCell(k, j)] != [] then Rearm(k, reqs)
                          else AccHigher(k, reqs, j + 1, snap))
  {
    hide HigherCount, HigherCell;
  }

  // ----- Drain -----

  lemma {:induction false} ScanRuns(c: Config, m: Matrix, snap: Queues, j: nat, k: nat)
    requires j <= k <= CELLS && forall i: Rank :: j <= i < k ==> m.queues[i] == []
    ensures Reaches(c, m, Scan(j, snap), m, Scan(k, snap), k - j)
    decreases k - j
  {
    if j < k {
      var i: Rank := j;
      assert m.queues[i] == [];
      ScanRuns(c, m, snap, j + 1, k);
    }
  }

  lemma {:induction false} RecvRuns(c: Config, m: Matrix, k: Rank, got: seq<Request>, snap: Queues) returns (n: nat)
    requires |got| <= c.maxBatch && |got| + |m.queues[k]| > 0 && c.maxBatch > 0
    ensures var t := Min(c.maxBatch - |got|, |m.queues[k]|);
            Reaches(c, m, Recv(k, got, snap), Less(m, k, t), Settle(k, got + m.queues[k][..t], snap), n)
    decreases c.maxBatch - |got|
  {
    var q := m.queues[k];
    var t := Min(c.maxBatch - |got|, |q|);
    if t > 0 {
      var p := RecvRuns(c, Pop(m, k), k, got + [q[0]], snap);
      LessPop(m, k, got, t);
      hide Reaches, Less;
      First(c, m, Recv(k, got, snap), [q[0]], Pop(m, k), Recv(k, got + [q[0]], snap),
        Less(m, k, t), Settle(k, got + q[..t], snap), p);
      n := p + 1;
    } else {
      LessNone(m, k, got);
      hide Reaches, Less;
      Once(c, m, Recv(k, got, snap), m, Settle(k, got, snap));
      n := 1;
    }
  }

  /** Drain alone returns the oldest requests of the first non-empty sub-queue, and nothing from an empty matrix. */
  lemma DrainAlone(c: Config, m: Matrix, held: seq<Request>) returns (n: nat, m': Matrix)
    requires c.maxBatch > 0 && Mirrors(c, m, held)
    ensures held == [] ==> Reaches(c, m, DrainCall, m, Rearm(0, []), n)
    ensures held != [] ==>
      var k := Front(c.route, held); var t := Share(c.route, held, k, c.maxBatch);
      Reaches(c, m, DrainCall, m', FlushCheck(k, Select(c.route, held, k)[..t]), n)
      && Mirrors(c, m', Without(c.route, held, k, t)) && m' == Taken(m, k, t)
  {
    if held == [] {
      n := NothingFound(c, m);
      return n, m;
    }
    var k := Front(c.route, held);
    FrontFirst(c, m, held, k);
    var t := Share(c.route, held, k, c.maxBatch);
    n := FoundAt(c, m, k);
    m' := Taken(m, k, t);
    TakenMirrors(c, m, held, k, t);
  }

  lemma NothingFound(c: Config, m: Matrix) returns (n: nat)
    requires forall i: Rank :: m.queues[i] == []
    ensures Reaches(c, m, DrainCall, m, Rearm(0, []), n)
  {
    ScanTo(c, m, CELLS);
    AtScan(c, m, CELLS, m.queues);
    hide *;
    Once(c, m, Scan(CELLS, m.queues), m, Rearm(0, []));
    Chain(c, m, DrainCall, m, Scan(CELLS, m.queues), CELLS + 1, m, Rearm(0, []), 1);
    n := CELLS + 2;
  }

  lemma ScanTo(c: Config, m: Matrix, k: nat)
    requires k <= CELLS && forall i: Rank :: i < k ==> m.queues[i] == []
    ensures Reaches(c, m, DrainCall, m, Scan(k, m.queues), k + 1)
  {
    ScanRuns(c, m, m.queues, 0, k);
    AtCall(c, m);
    hide *;
    First(c, m, DrainCall, [], m, Scan(0, m.queues), m, Scan(k, m.queues), k);
  }

  lemma FoundAt(c: Config, m: Matrix, k: Rank) returns (n: nat)
    requires c.maxBatch > 0 && m.queues[k] != [] && forall i: Rank :: i < k ==> m.queues[i] == []
    ensures var t := Min(c.maxBatch, |m.queues[k]|);
            Reaches(c, m, DrainCall, Taken(m, k, t), FlushCheck(k, m.queues[k][..t]), n)
  {
    var at := Scan(k, m.queues);
    var t := Min(c.maxBatch, |m.queues[k]|);
    var out := FlushCheck(k, m.queues[k][..t]);
    ScanTo(c, m, k);
    var p := TakeAt(c, m, k, m.queues);
    hide *;
    Chain(c, m, DrainCall, m, at, k + 1, Taken(m, k, t), out, p);
    n := k + 1 + p;
  }

  lemma TakeAt(c: Config, m: Matrix, k: Rank, snap: Queues) returns (n: nat)
    requires c.maxBatch > 0 && m.queues[k] != []
    ensures var t := Min(c.maxBatch, |m.queues[k]|);
            Reaches(c, m, Scan(k, snap), Taken(m, k, t), FlushCheck(k, m.queues[k][..t]), n)
  {
    var t := Min(c.maxBatch, |m.queues[k]|);
    var all := m.queues[k][..t];
    var p := RecvRuns(c, m, k, [], snap);
    assert [] + all == all;
    AtScan(c, m, k, snap);
    AtSettle(c, m, k, t, all, snap);
    hide *;
    First(c, m, Scan(k, snap), [], m, Recv(k, [], snap), Less(m, k, t), Settle(k, all, snap), p);
    Once(c, Less(m, k, t), Settle(k, all, snap), Taken(m, k, t), FlushCheck(k, all));
    Chain(c, m, Scan(k, snap), Less(m, k, t), Settle(k, all, snap), p + 1, Taken(m, k, t), FlushCheck(k, all), 1);
    n := p + 2;
  }

  lemma FrontFirst(c: Config, m: Matrix, held: seq<Request>, k: Rank)
    requires Mirrors(c, m, held) && held != [] && k == Front(c.route, held)
    ensures m.queues[k] != [] && forall i: Rank :: i < k ==> m.queues[i] == []
  {
    SelectMember(c.route, held, k);
    forall i: Rank | i < k
      ensures m.queues[i] == []
    {
      SelectMember(c.route, held, i);
      NoMembers(m.queues[i]);
    }
  }

  lemma NoMembers(s: seq<Request>)
    ensures (forall r :: r !in s) ==> s == []
  {
    if s != [] { assert s[0] in s; }
  }

  lemma TakenMirrors(c: Config, m: Matrix, held: seq<Request>, k: Rank, t: nat)
    requires Mirrors(c, m, held) && t <= |m.queues[k]|
    ensures Mirrors(c, Taken(m, k, t), Without(c.route, held, k, t))
  {
    forall j: Rank
      ensures Taken(m, k, t).queues[j] == Select(c.route, Without(c.route, held, k, t), j)
    {
      WithoutSelect(c.route, held, k, t, j);
    }
  }

  // ----- A turn of accumulate -----

  lemma {:induction false} AccRecvRuns(c: Config, m: Matrix, k: Rank, reqs: seq<Request>, got: seq<Request>,
                                       snap: Queues)
    returns (n: nat)
    requires |reqs| + |got| <= c.maxBatch && |got| + |m.queues[k]| > 0 && |reqs| < c.maxBatch
    ensures var t := Min(c.maxBatch - |reqs| - |got|, |m.queues[k]|);
            Reaches(c, m, AccRecv(k, reqs, got, snap),
                    Less(m, k, t), AccSettle(k, reqs, got + m.queues[k][..t], snap), n)
    decreases c.maxBatch - |got|
  {
    var q := m.queues[k];
    var t := Min(c.maxBatch - |reqs| - |got|, |q|);
    if t > 0 {
      var p := AccRecvRuns(c, Pop(m, k), k, reqs, got + [q[0]], snap);
      LessPop(m, k, got, t);
      hide Reaches, Less;
      First(c, m, AccRecv(k, reqs, got, snap), [q[0]], Pop(m, k), AccRecv(k, reqs, got + [q[0]], snap),
        Less(m, k, t), AccSettle(k, reqs, got + q[..t], snap), p);
      n := p + 1;
    } else {
      LessNone(m, k, got);
      hide Reaches, Less;
      Once(c, m, AccRecv(k, reqs, got, snap), m, AccSettle(k, reqs, got, snap));
      n := 1;
    }
  }

  /** DrainFrom alone tops the batch up from its own sub-queue, in order; a full batch goes straight out. */
  lemma DrainFromAlone(c: Config, m: Matrix, held: seq<Request>, k: Rank, reqs: seq<Request>)
    returns (n: nat, m': Matrix)
    requires |reqs| < c.maxBatch && Mirrors(c, m, held)
    ensures var t := Share(c.route, held, k, c.maxBatch - |reqs|); var all := reqs + Select(c.route, held, k)[..t];
            Reaches(c, m, AccTop(k, reqs),
                    m', if |all| >= c.maxBatch then Rearm(k, all) else AccFlush(k, all, m.queues), n)
            && Mirrors(c, m', Without(c.route, held, k, t)) && m' == Taken(m, k, t)
  {
    var t := Share(c.route, held, k, c.maxBatch - |reqs|);
    m' := Taken(m, k, t);
    TakenMirrors(c, m, held, k, t);
    n := TopUp(c, m, k, reqs);
  }

  lemma TopUp(c: Config, m: Matrix, k: Rank, reqs: seq<Request>) returns (n: nat)
    requires |reqs| < c.maxBatch
    ensures var t := Min(c.maxBatch - |reqs|, |m.queues[k]|); var all := reqs + m.queues[k][..t];
            Reaches(c, m, AccTop(k, reqs), Taken(m, k, t),
                    if |all| >= c.maxBatch then Rearm(k, all) else AccFlush(k, all, m.queues), n)
  {
    var snap, q := m.queues, m.queues[k];
    var t := Min(c.maxBatch - |reqs|, |q|);
    var all := reqs + q[..t];
    var out := if |all| >= c.maxBatch then Rearm(k, all) else AccFlush(k, all, snap);
    AtTop(c, m, k, reqs);
    if q == [] {
      LessNone(m, k, reqs);
      assert Taken(m, k, t) == m;
      hide *;
      Once(c, m, AccTop(k, reqs), m, out);
      n := 1;
    } else {
      var p := AccRecvRuns(c, m, k, reqs, [], snap);
      assert [] + q[..t] == q[..t];
      AtAccSettle(c, m, k, reqs, t, q[..t], snap);
      hide *;
      First(c, m, AccTop(k, reqs), [], m, AccRecv(k, reqs, [], snap),
        Less(m, k, t), AccSettle(k, reqs, q[..t], snap), p);
      Once(c, Less(m, k, t), AccSettle(k, reqs, q[..t], snap), Taken(m, k, t), out);
      Chain(c, m, AccTop(k, reqs), Less(m, k, t), AccSettle(k, reqs, q[..t], snap), p + 1, Taken(m, k, t), out, 1);
      n := p + 2;
    }
  }

  // ----- The preemption check -----

  lemma {:induction false} HigherRuns(c: Config, m: Matrix, k: Rank, reqs: seq<Request>, snap: Queues, j: nat)
    returns (n: nat)
    requires j <= HigherCount(k)
    ensures var found := exists i: nat :: j <= i < HigherCount(k) && m.queues[HigherCell(k, i)] != [];
            Reaches(c, m, AccHigher(k, reqs, j, snap), m, if found then Rearm(k, reqs) else AccPark(k, reqs, snap), n)
    decreases HigherCount(k) - j
  {
    hide HigherCount, HigherCell;
    var found := exists i: nat :: j <= i < HigherCount(k) && m.queues[HigherCell(k, i)] != [];
    var out := if found then Rearm(k, reqs) else AccPark(k, reqs, snap);
    AtHigher(c, m, k, reqs, j, snap);
    hide *;
    if j < HigherCount(k) && m.queues[HigherCell(k, j)] == [] {
      var p := HigherRuns(c, m, k, reqs, snap, j + 1);
      First(c, m, AccHigher(k, reqs, j, snap), [], m, AccHigher(k, reqs, j + 1, snap), m, out, p);
      n := p + 1;
    } else {
      Once(c, m, AccHigher(k, reqs, j, snap), m, out);
      n := 1;
    }
  }

  /** HasHigherPriorityThan alone ends accumulation if and only if a request of a higher class is held. */
  lemma HigherAlone(c: Config, m: Matrix, held: seq<Request>, k: Rank, reqs: seq<Request>, snap: Queues)
    returns (n: nat)
    requires Mirrors(c, m, held)
    ensures var found := exists r :: r in held && ClassOf(c.route(r)) > ClassOf(k);
            Reaches(c, m, AccHigher(k, reqs, 0, snap), m, if found then Rearm(k, reqs) else AccPark(k, reqs, snap), n)
  {
    n := HigherRuns(c, m, k, reqs, snap, 0);
    HigherHeld(c, m, held, k);
  }

  lemma HigherHeld(c: Config, m: Matrix, held: seq<Request>, k: Rank)
    requires Mirrors(c, m, held)
    ensures (exists i: nat :: 0 <= i < HigherCount(k) && m.queues[HigherCell(k, i)] != [])
            <==> exists r :: r in held && ClassOf(c.route(r)) > ClassOf(k)
  {
    hide HigherCount, HigherCell, ClassOf;
    if i: nat :| i < HigherCount(k) && m.queues[HigherCell(k, i)] != [] {
      var j := HigherCell(k, i);
      HigherCells(k, j);
      SelectMember(c.route, held, j);
      var r := m.queues[j][0];
      assert r in Select(c.route, held, j);
    }
    if r :| r in held && ClassOf(c.route(r)) > ClassOf(k) {
      HigherCells(k, c.route(r));
      SelectMember(c.route, held, c.route(r));
      assert r in Select(c.route, held, c.route(r));
    }
  }
}
