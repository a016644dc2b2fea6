/**
 Runs that show what the pipeline does not promise. A Submit that passed its closed check before Close and pushes
 after DrainAll went by is accepted, and its caller is never told anything. And depth can be negative.
 */
module PipelineWitnesses {
  import opened Models
  import opened Pipeline
  import opened PipelineWake
  import opened PipelineShutdown

  // ----- Chains of steps -----

  datatype Trail = Trail(states: seq<State>, actions: seq<Action>)

  /** The steps of t lead from s to s'. */
  ghost predicate Walks(c: Config, t: Trail, s: State, s': State) {
    && |t.states| == |t.actions| + 1 && t.states[0] == s && t.states[|t.actions|] == s'
    && forall i :: 0 <= i < |t.actions| ==> Step(c, t.states[i], t.actions[i], t.states[i + 1])
  }

  lemma Stay(c: Config, s: State) returns (t: Trail)
    ensures Walks(c, t, s, s)
  {
    t := Trail([s], []);
  }

  lemma Then(c: Config, t: Trail, s: State, m: State, a: Action, s': State) returns (t': Trail)
    requires Walks(c, t, s, m) && Step(c, m, a, s')
    ensures Walks(c, t', s, s')
  {
    hide Step;
    t' := Trail(t.states + [s'], t.actions + [a]);
  }

  // ----- A late Submit -----

  function Empty(): Queues { seq(CELLS, _ => []) }

  function Zeros(k: nat): seq<nat> { seq(k, _ => 0) }

  /** How many workers there are, and how many goroutines that will call Stop. */
  datatype Cast = Cast(workers: nat, stops: nat)

  /** Drainers: the batcher's, and one for each stopper that never drains. */
  function Drains(p: Cast, d: Drainer): seq<Drainer> { [d] + seq(p.stops, _ => Drainer(Off, Empty(), [])) }

  lemma NextDrains(p: Cast, d: Drainer, d': Drainer)
    ensures |Drains(p, d)| == p.stops + 1
    ensures Drains(p, d)[0] == d && Drains(p, d)[0 := d'] == Drains(p, d')
  {
  }

  /** The first k workers have exited; the next one is at `at`. */
  function Crew(p: Cast, k: nat, at: WorkerPc): seq<WorkerPc> {
    seq(p.workers, i => if i < k then Exited else if i == k then at else Unstarted)
  }

  /** The first k stoppers have returned; the next one is at `at`. */
  function Stops(p: Cast, k: nat, at: StopPc): seq<StopPc> {
    seq(p.stops, i => if i < k then StopReturned else if i == k then at else Idle)
  }

  /** Nobody has done anything. */
  function Start(p: Cast): State {
    State(Matrix(Empty(), 0, false), Gate(false, {}, false, Fresh), Flags(false, false, false, false, false), map[],
          NotStarted, Stops(p, 0, Idle), Drains(p, Drainer(Off, Empty(), [])),
          Chans(seq(PRIORITIES, _ => []), seq(PRIORITIES, _ => 0), {}), Crew(p, 0, Unstarted),
          Logs({}, [], [], [], [], 0, false), Outbox([], {}, {}), false)
  }

  /** The submitter has found the matrix open; the batcher, cancelled, is in DrainAll at sub-queue k. */
  function Sweeping(p: Cast, r: Request, k: nat): State {
    Start(p).(subs := map[r := Checked], flags := Flags(true, false, false, true, false), pc := Draining,
            logs := Logs({r}, [], [], [], [], 0, false), drains := Drains(p, Drainer(Sweep(k, []), Empty(), Zeros(k))))
  }

  lemma Approach(c: Config, p: Cast, r: Request) returns (t: Trail)
    ensures Walks(c, t, Start(p), Sweeping(p, r, 0))
  {
    hide Walks, Crew, Stops;
    var s0 := Start(p);
    var s1 := s0.(subs := map[r := Entered], logs := s0.logs.(seen := {r}));
    var s2 := s1.(subs := map[r := Locked]);
    var s3 := s2.(subs := map[r := Checked]);
    var s4 := s3.(flags := s3.flags.(started := true), pc := Top);
    var s5 := s4.(flags := s4.flags.(ctxDone := true));
    t := Stay(c, s0);
    t := Then(c, t, s0, s0, Enter(r), s1);
    t := Then(c, t, s0, s1, Submitter(r), s2);
    t := Then(c, t, s0, s2, Submitter(r), s3);
    t := Then(c, t, s0, s3, Batcher(Go), s4);
    t := Then(c, t, s0, s4, CancelBatcher, s5);
    var d := Drainer(Sweep(0, []), Empty(), []);
    assert Zeros(0) == [];
    NextDrains(p, s5.drains[0], d);
    assert AllOff(s5) by { assert forall i :: 0 <= i < |s5.drains| ==> s5.drains[i].pc.Off?; }
    hide Drains;
    t := Then(c, t, s0, s5, Batcher(Go), Sweeping(p, r, 0));
  }

  lemma {:induction false} SweepOn(c: Config, p: Cast, r: Request, k: nat) returns (t: Trail)
    requires k <= CELLS
    ensures Walks(c, t, Start(p), Sweeping(p, r, k))
  {
    if k == 0 {
      t := Approach(c, p, r);
    } else {
      t := SweepOn(c, p, r, k - 1);
      hide Walks, Crew, Stops;
      var s, s' := Sweeping(p, r, k - 1), Sweeping(p, r, k);
      assert Zeros(k) == Zeros(k - 1) + [0];
      NextDrains(p, s.drains[0], s'.drains[0]);
      t := Then(c, t, Start(p), s, DrainerTurn(0), s');
    }
  }

  /** DrainAll has found nothing and drain is about to close the matrix; the submitter still has not pushed. */
  function Swept(p: Cast, r: Request): State {
    var s := Sweeping(p, r, CELLS);
    s.(logs := s.logs.(zeroed := true), drains := Drains(p, Drainer(CloseCall, Empty(), Zeros(CELLS))))
  }

  lemma Pass(c: Config, p: Cast, r: Request, before: Trail) returns (t: Trail)
    requires Walks(c, before, Start(p), Sweeping(p, r, CELLS))
    ensures Walks(c, t, Start(p), Swept(p, r))
  {
    hide Walks, Crew, Stops, Zeros;
    var s, s' := Sweeping(p, r, CELLS), Swept(p, r);
    var m := s'.(drains := Drains(p, Drainer(Notify([]), Empty(), Zeros(CELLS))));
    NextDrains(p, s.drains[0], m.drains[0]);
    NextDrains(p, m.drains[0], s'.drains[0]);
    t := before;
    t := Then(c, t, Start(p), s, DrainerTurn(0), m);
    t := Then(c, t, Start(p), m, DrainerTurn(0), s');
  }

  /** The submitter has pushed, signalled and returned success. */
  function Accepted(c: Config, p: Cast, r: Request): State {
    var s := Swept(p, r);
    s.(m := Matrix(Empty()[c.route(r) := [r]], 1, true), subs := map[], logs := s.logs.(accepted := [r]))
  }

  lemma SlipIn(c: Config, p: Cast, r: Request, before: Trail) returns (t: Trail)
    requires Walks(c, before, Start(p), Swept(p, r))
    requires c.Valid()
    ensures Walks(c, t, Start(p), Accepted(c, p, r))
  {
    hide Walks, Crew, Stops, Zeros;
    var s := Swept(p, r);
    var k := c.route(r);
    assert Empty()[k] + [r] == [r];
    var s1 := s.(m := Matrix(Empty()[k := [r]], 0, false), subs := map[r := Pushed], logs := s.logs.(accepted := [r]));
    var s2 := s1.(m := s1.m.(depth := 1), subs := map[r := Added]);
    var s3 := s2.(m := s2.m.(token := true), subs := map[r := Leaving]);
    t := before;
    t := Then(c, t, Start(p), s, Submitter(r), s1);
    t := Then(c, t, Start(p), s1, Submitter(r), s2);
    t := Then(c, t, Start(p), s2, Submitter(r), s3);
    assert s3.subs - {r} == map[];
    t := Then(c, t, Start(p), s3, Submitter(r), Accepted(c, p, r));
  }

  function Shut(t: nat): set<nat>
    requires t <= CELLS
  {
    if t == 0 then {} else Shut(t - 1) + {CloseOrder(t - 1)}
  }

  /** Close holds the lock and has closed t sub-queues. */
  function Closing(c: Config, p: Cast, r: Request, t: nat): State
    requires t <= CELLS
  {
    Accepted(c, p, r).(gate := Gate(true, Shut(t), true, Running),
                       drains := Drains(p, Drainer(DrainPc.Closing(t), Empty(), Zeros(CELLS))))
  }

  lemma Lock(c: Config, p: Cast, r: Request, before: Trail) returns (t: Trail)
    requires Walks(c, before, Start(p), Accepted(c, p, r))
    ensures Walks(c, t, Start(p), Closing(c, p, r, 0))
  {
    hide Walks, Crew, Stops, Zeros;
    var s, s' := Accepted(c, p, r), Closing(c, p, r, 0);
    var d := s.drains[0];
    var s1 := s.(gate := s.gate.(once := Running), drains := Drains(p, d.(pc := LockWait)));
    var s2 := s1.(gate := s1.gate.(writer := true), drains := Drains(p, d.(pc := Flagging)));
    NextDrains(p, s.drains[0], s1.drains[0]);
    NextDrains(p, s1.drains[0], s2.drains[0]);
    NextDrains(p, s2.drains[0], s'.drains[0]);
    t := before;
    t := Then(c, t, Start(p), s, DrainerTurn(0), s1);
    t := Then(c, t, Start(p), s1, DrainerTurn(0), s2);
    t := Then(c, t, Start(p), s2, DrainerTurn(0), s');
  }

  lemma {:induction false} CloseOn(c: Config, p: Cast, r: Request, k: nat, before: Trail) returns (t: Trail)
    requires k <= CELLS && Walks(c, before, Start(p), Closing(c, p, r, 0))
    ensures Walks(c, t, Start(p), Closing(c, p, r, k))
  {
    if k == 0 {
      t := before;
    } else {
      t := CloseOn(c, p, r, k - 1, before);
      hide Walks, Crew, Stops, Zeros, CloseOrder;
      var s, s' := Closing(c, p, r, k - 1), Closing(c, p, r, k);
      NextDrains(p, s.drains[0], s'.drains[0]);
      t := Then(c, t, Start(p), s, DrainerTurn(0), s');
    }
  }

  function Upto(i: nat): (u: set<nat>)
    ensures forall x :: x in u ==> x < i
  {
    if i == 0 then {} else Upto(i - 1) + {i - 1}
  }

  /** The drain is over; the batcher's goroutine has closed i batch channels. */
  function Ending(c: Config, p: Cast, r: Request, pc: Pc, i: nat): State {
    var s := Accepted(c, p, r);
    s.(gate := Gate(true, Shut(CELLS), false, Done), drains := Drains(p, Drainer(Finished, Empty(), Zeros(CELLS))),
       pc := pc, chans := s.chans.(closed := Upto(i)))
  }

  lemma Unlock(c: Config, p: Cast, r: Request, before: Trail) returns (t: Trail)
    requires Walks(c, before, Start(p), Closing(c, p, r, CELLS))
    ensures Walks(c, t, Start(p), Ending(c, p, r, Draining, 0))
  {
    hide Walks, Crew, Stops, Zeros, Shut;
    var s, s' := Closing(c, p, r, CELLS), Ending(c, p, r, Draining, 0);
    NextDrains(p, s.drains[0], s'.drains[0]);
    t := Then(c, before, Start(p), s, DrainerTurn(0), s');
  }

  lemma CloserSteps(c: Config, s: State, s': State)
    requires Stopped(s.pc) || s.pc.Draining?
    requires CloseStep(s, s')
    ensures Step(c, s, Batcher(Go), s')
  {
    hide CloseStep;
  }

  lemma Returns(c: Config, p: Cast, r: Request, before: Trail) returns (t: Trail)
    requires Walks(c, before, Start(p), Ending(c, p, r, Draining, 0))
    ensures Walks(c, t, Start(p), Ending(c, p, r, ClosingChans(0), 0))
  {
    hide Walks, Crew, Stops, Zeros, Shut, Upto, Step;
    CloserSteps(c, Ending(c, p, r, Draining, 0), Ending(c, p, r, Returned, 0));
    t := Then(c, before, Start(p), Ending(c, p, r, Draining, 0), Batcher(Go), Ending(c, p, r, Returned, 0));
    CloserSteps(c, Ending(c, p, r, Returned, 0), Ending(c, p, r, ClosingChans(0), 0));
    t := Then(c, t, Start(p), Ending(c, p, r, Returned, 0), Batcher(Go), Ending(c, p, r, ClosingChans(0), 0));
  }

  lemma {:induction false} CloseChansOn(c: Config, p: Cast, r: Request, i: nat, before: Trail) returns (t: Trail)
    requires i <= PRIORITIES && Walks(c, before, Start(p), Ending(c, p, r, Draining, 0))
    ensures Walks(c, t, Start(p), Ending(c, p, r, ClosingChans(i), i))
  {
    hide Walks, Crew, Stops, Zeros, Shut, Step;
    if i == 0 {
      t := Returns(c, p, r, before);
    } else {
      t := CloseChansOn(c, p, r, i - 1, before);
      var s, s' := Ending(c, p, r, ClosingChans(i - 1), i - 1), Ending(c, p, r, ClosingChans(i), i);
      CloserSteps(c, s, s');
      t := Then(c, t, Start(p), s, Batcher(Go), s');
    }
  }

  lemma Leave(c: Config, p: Cast, r: Request, before: Trail) returns (t: Trail)
    requires Walks(c, before, Start(p), Ending(c, p, r, ClosingChans(PRIORITIES), PRIORITIES))
    ensures Walks(c, t, Start(p), Ending(c, p, r, Gone, PRIORITIES))
  {
    hide Walks, Crew, Stops, Zeros, Shut, Upto, Step;
    var s, s' := Ending(c, p, r, ClosingChans(PRIORITIES), PRIORITIES), Ending(c, p, r, Gone, PRIORITIES);
    CloserSteps(c, s, s');
    t := Then(c, before, Start(p), s, Batcher(Go), s');
  }

  /** The first k workers have seen their channels closed; the next one is at `at`. */
  function Exiting(c: Config, p: Cast, r: Request, k: nat, at: WorkerPc): State {
    Ending(c, p, r, Gone, PRIORITIES).(workers := Crew(p, k, at))
  }

  lemma WorkerMoves(c: Config, p: Cast, r: Request, k: nat, before: Trail) returns (t: Trail)
    requires k < p.workers && Walks(c, before, Start(p), Exiting(c, p, r, k, Unstarted))
    ensures Walks(c, t, Start(p), Exiting(c, p, r, k + 1, Unstarted))
  {
    hide Walks, Zeros, Shut, Drains, Stops;
    var top := Level(0, Lengths(Start(p).chans.sent));
    var s, m, s' := Exiting(c, p, r, k, Unstarted), Exiting(c, p, r, k, top), Exiting(c, p, r, k + 1, Unstarted);
    assert Crew(p, k, Unstarted)[k := top] == Crew(p, k, top);
    assert Crew(p, k, top)[k := Exited] == Crew(p, k + 1, Unstarted);
    assert Crew(p, k, Unstarted)[k] == Unstarted && Crew(p, k, top)[k] == top;
    assert 3 in Upto(4);
    hide Crew;
    t := Then(c, before, Start(p), s, WorkerTurn(k, Accept), m);
    t := Then(c, t, Start(p), m, WorkerTurn(k, SeeClosed(3)), s');
  }

  lemma {:induction false} ExitOn(c: Config, p: Cast, r: Request, k: nat, before: Trail) returns (t: Trail)
    requires k <= p.workers && Walks(c, before, Start(p), Ending(c, p, r, Gone, PRIORITIES))
    ensures Walks(c, t, Start(p), Exiting(c, p, r, k, Unstarted))
  {
    hide Walks, Zeros, Shut, Drains, Stops, Crew, Upto;
    if k == 0 {
      t := before;
    } else {
      t := ExitOn(c, p, r, k - 1, before);
      t := WorkerMoves(c, p, r, k - 1, t);
    }
  }

  /** Everybody who called Stop before has returned; stopper k is at `at`. */
  function Stopping(c: Config, p: Cast, r: Request, k: nat, at: StopPc): State {
    var s := Exiting(c, p, r, p.workers, Unstarted);
    s.(stops := Stops(p, k, at),
       flags := Flags(true, k > 0 || at != Idle, k > 0 || (at != Idle && at != Flagged), true, false))
  }

  lemma StopperMoves(c: Config, p: Cast, r: Request, k: nat, at: StopPc, next: StopPc, before: Trail) returns (t: Trail)
    requires k < p.stops && Walks(c, before, Start(p), Stopping(c, p, r, k, at))
    requires (at, next) in {(Idle, Flagged), (Flagged, ChanClosed), (ChanClosed, Waiting), (Waiting, StopReturned)}
    ensures Walks(c, t, Start(p), Stopping(c, p, r, k, next))
  {
    hide Walks, Zeros, Shut, Crew, Upto;
    var s, s' := Stopping(c, p, r, k, at), Stopping(c, p, r, k, next);
    assert Stops(p, k, at)[k := next] == Stops(p, k, next);
    NextDrains(p, s.drains[0], s.drains[0]);
    hide Drains;
    t := Then(c, before, Start(p), s, StopperTurn(k), s');
  }

  lemma {:induction false} StopOn(c: Config, p: Cast, r: Request, k: nat, before: Trail) returns (t: Trail)
    requires k <= p.stops && Walks(c, before, Start(p), Exiting(c, p, r, p.workers, Unstarted))
    ensures Walks(c, t, Start(p), Stopping(c, p, r, k, Idle))
  {
    hide Walks, Zeros, Shut, Crew, Upto, Drains;
    if k == 0 {
      t := before;
    } else {
      t := StopOn(c, p, r, k - 1, before);
      t := StopperMoves(c, p, r, k - 1, Idle, Flagged, t);
      t := StopperMoves(c, p, r, k - 1, Flagged, ChanClosed, t);
      t := StopperMoves(c, p, r, k - 1, ChanClosed, Waiting, t);
      t := StopperMoves(c, p, r, k - 1, Waiting, StopReturned, t);
      assert Stops(p, k - 1, StopReturned) == Stops(p, k, Idle);
    }
  }

  /** r was accepted and sits in its sub-queue without an outcome, and everybody has finished. */
  ghost predicate Stranded(c: Config, s: State, r: Request) {
    && r in s.logs.accepted && r in s.m.queues[c.route(r)] && s.box.retired == []
    && s.pc == Gone && s.subs == map[] && Over(s)
    && (forall i :: 0 <= i < |s.stops| ==> s.stops[i].StopReturned?)
    && (forall w :: 0 <= w < |s.workers| ==> s.workers[w].Exited?)
  }

  /** For every request, configuration and number of workers and Stops there is a run that strands the request. */
  lemma LateSubmitIsStranded(c: Config, p: Cast, r: Request) returns (states: seq<State>, actions: seq<Action>)
    requires c.Valid()
    ensures Run(c, states, actions) && Stranded(c, states[|actions|], r)
    ensures |states[|actions|].workers| == p.workers && |states[|actions|].stops| == p.stops
  {
    var t := SweepOn(c, p, r, CELLS);
    t := Pass(c, p, r, t);
    t := SlipIn(c, p, r, t);
    t := Lock(c, p, r, t);
    t := CloseOn(c, p, r, CELLS, t);
    t := Unlock(c, p, r, t);
    t := CloseChansOn(c, p, r, PRIORITIES, t);
    t := Leave(c, p, r, t);
    t := ExitOn(c, p, r, p.workers, t);
    t := StopOn(c, p, r, p.stops, t);
    StartIsInitial(p);
    StoppedIsStranded(c, p, r);
    hide *;
    var last := Stopping(c, p, r, p.stops, Idle);
    assert Run(c, t.states, t.actions) by { WalkIsRun(c, p, t, last); }
    states, actions := t.states, t.actions;
    assert states[|actions|] == last by { WalkEnds(c, p, t, last); }
  }

  lemma StartIsInitial(p: Cast)
    ensures Init(Start(p))
  {
  }

  lemma StoppedIsStranded(c: Config, p: Cast, r: Request)
    ensures var s := Stopping(c, p, r, p.stops, Idle);
            Stranded(c, s, r) && |s.workers| == p.workers && |s.stops| == p.stops
  {
    hide Shut, Zeros, Upto;
    assert Empty()[c.route(r) := [r]][c.route(r)] == [r];
  }

  lemma WalkIsRun(c: Config, p: Cast, t: Trail, s: State)
    requires c.Valid() && Init(Start(p)) && Walks(c, t, Start(p), s)
    ensures Run(c, t.states, t.actions)
  {
    hide Step, Init, Start;
  }

  lemma WalkEnds(c: Config, p: Cast, t: Trail, s: State)
    requires Walks(c, t, Start(p), s)
    ensures |t.states| == |t.actions| + 1 && t.states[|t.actions|] == s
  {
    hide Step, Start;
  }

  // ----- A negative depth -----

  const Single := Config(r => 0, 2, 2, 1)

  /** Both requests are queued; first's depth increment is outstanding, second's Submit has signalled. */
  function Both(p: Cast, first: Request, second: Request, pc: Pc): State {
    Start(p).(m := Matrix(Empty()[0 := [first, second]], 1, true), flags := Flags(true, false, false, false, false),
            subs := map[first := Pushed, second := Leaving], pc := pc,
            logs := Logs({first, second}, [first, second], [], [], [], 0, false))
  }

  function Entering(p: Cast, first: Request, second: Request, at: SubPc, pc: Pc): State {
    Start(p).(m := Matrix(Empty()[0 := [first]], 0, false), flags := Flags(true, false, false, false, false),
            subs := map[first := Pushed, second := at], pc := pc,
            logs := Logs({first, second}, [first], [], [], [], 0, false))
  }

  lemma FirstPushes(p: Cast, first: Request, second: Request) returns (t: Trail)
    requires first != second
    ensures Walks(Single, t, Start(p), Entering(p, first, second, Entered, Top))
  {
    hide Walks, Crew, Stops;
    var c := Single;
    var s0 := Start(p).(flags := Flags(true, false, false, false, false), pc := Top);
    var s1 := s0.(subs := map[first := Entered], logs := s0.logs.(seen := {first}));
    var s2, s3 := s1.(subs := map[first := Locked]), s1.(subs := map[first := Checked]);
    assert Empty()[0] + [first] == [first];
    var s4 := s1.(m := Matrix(Empty()[0 := [first]], 0, false), subs := map[first := Pushed],
                  logs := s1.logs.(accepted := [first]));
    t := Stay(c, Start(p));
    t := Then(c, t, Start(p), Start(p), Batcher(Go), s0);
    t := Then(c, t, Start(p), s0, Enter(first), s1);
    t := Then(c, t, Start(p), s1, Submitter(first), s2);
    t := Then(c, t, Start(p), s2, Submitter(first), s3);
    t := Then(c, t, Start(p), s3, Submitter(first), s4);
    assert {first} + {second} == {first, second};
    t := Then(c, t, Start(p), s4, Enter(second), Entering(p, first, second, Entered, Top));
  }

  lemma SecondSignals(p: Cast, first: Request, second: Request, before: Trail) returns (t: Trail)
    requires first != second && Walks(Single, before, Start(p), Entering(p, first, second, Entered, Top))
    ensures Walks(Single, t, Start(p), Both(p, first, second, Top))
  {
    hide Walks, Crew, Stops;
    var c := Single;
    var s1, s2 := Entering(p, first, second, Locked, Top), Entering(p, first, second, Checked, Top);
    var s5 := Both(p, first, second, Top);
    var s3 := s5.(m := Matrix(s5.m.queues, 0, false), subs := map[first := Pushed, second := Pushed]);
    var s4 := s3.(m := Matrix(s5.m.queues, 1, false), subs := map[first := Pushed, second := Added]);
    assert Empty()[0 := [first]][0 := [first, second]] == Empty()[0 := [first, second]];
    assert [first] + [second] == [first, second];
    t := before;
    t := Then(c, t, Start(p), Entering(p, first, second, Entered, Top), Submitter(second), s1);
    t := Then(c, t, Start(p), s1, Submitter(second), s2);
    t := Then(c, t, Start(p), s2, Submitter(second), s3);
    t := Then(c, t, Start(p), s3, Submitter(second), s4);
    t := Then(c, t, Start(p), s4, Submitter(second), s5);
  }

  /** Drain receives both requests and subtracts both, while only one has been added. */
  lemma DepthCanBeNegative(p: Cast, first: Request, second: Request) returns (states: seq<State>, actions: seq<Action>)
    requires first != second
    ensures Run(Single, states, actions)
    ensures var s := states[|actions|]; s.m.depth == -1 && TotalLen(s.m.queues) == 0 && PushedSet(s.subs) == {first}
  {
    var t := FirstPushes(p, first, second);
    t := SecondSignals(p, first, second, t);
    t := WakeUp(p, first, second, t);
    t := DrainBoth(p, first, second, t);
    t := Subtract(p, first, second, t);
    StartIsInitial(p);
    DippedBelow(p, first, second);
    assert Single.Valid();
    hide *;
    assert Run(Single, t.states, t.actions) by { WalkIsRun(Single, p, t, Dipped(p, first, second)); }
    states, actions := t.states, t.actions;
    assert states[|actions|] == Dipped(p, first, second) by { WalkEnds(Single, p, t, Dipped(p, first, second)); }
  }

  lemma DippedBelow(p: Cast, first: Request, second: Request)
    requires first != second
    ensures var s := Dipped(p, first, second);
            s.m.depth == -1 && TotalLen(s.m.queues) == 0 && PushedSet(s.subs) == {first}
  {
    hide TotalLen, Drains, Crew, Stops;
    assert forall k :: 0 <= k < CELLS ==> Empty()[k] == [];
    TotalLenEmpty(Empty());
    hide Empty;
    OnePushed(first, second);
  }

  lemma OnePushed(first: Request, second: Request)
    requires first != second
    ensures PushedSet(map[first := Pushed, second := Leaving]) == {first}
  {
  }

  function Dipped(p: Cast, first: Request, second: Request): State {
    var s := Both(p, first, second, FlushCheck(0, [first, second]));
    s.(m := Matrix(Empty(), -1, false), logs := s.logs.(received := [first, second]))
  }

  function Picking(p: Cast, first: Request, second: Request, k: nat): State
    requires k <= 2
  {
    var s := Both(p, first, second, Top);
    var q, got := s.m.queues, [first, second][..k];
    s.(m := Matrix(q[0 := [first, second][k..]], 1, false), pc := Recv(0, got, q), logs := s.logs.(received := got))
  }

  lemma Pair(first: Request, second: Request)
    ensures var p := [first, second];
            p[..0] == [] && p[..1] == [first] && p[..2] == p && p[0..] == p && p[1..] == [second] && p[2..] == []
    ensures [] + [first] == [first] && [first] + [second] == [first, second] && [second][1..] == []
  {
  }

  lemma WakeUp(p: Cast, first: Request, second: Request, before: Trail) returns (t: Trail)
    requires first != second && Walks(Single, before, Start(p), Both(p, first, second, Top))
    ensures Walks(Single, t, Start(p), Picking(p, first, second, 0))
  {
    hide Walks, Crew, Stops, RunStep, AccumulateNext;
    var c := Single;
    var s := Both(p, first, second, Top);
    var snap := s.m.queues;
    var calm := Matrix(snap, 1, false);
    var s1, s2, s3 := s.(pc := Wait), s.(m := calm, pc := DrainCall), s.(m := calm, pc := Scan(0, snap));
    assert snap[0 := [first, second][0..]] == snap;
    t := Then(c, before, Start(p), s, Batcher(Go), s1);
    t := Then(c, t, Start(p), s1, Batcher(Go), s2);
    t := Then(c, t, Start(p), s2, Batcher(Go), s3);
    t := Then(c, t, Start(p), s3, Batcher(Go), Picking(p, first, second, 0));
  }

  lemma DrainBoth(p: Cast, first: Request, second: Request, before: Trail) returns (t: Trail)
    requires first != second && Walks(Single, before, Start(p), Picking(p, first, second, 0))
    ensures Walks(Single, t, Start(p), Picking(p, first, second, 2))
  {
    hide Walks, Crew, Stops, RunStep, AccumulateNext;
    var c := Single;
    var s1, s2 := Picking(p, first, second, 1), Picking(p, first, second, 2);
    Pair(first, second);
    assert s1.m.queues[0 := []] == s2.m.queues;
    t := Then(c, before, Start(p), Picking(p, first, second, 0), Batcher(Go), s1);
    t := Then(c, t, Start(p), s1, Batcher(Go), s2);
  }

  lemma Subtract(p: Cast, first: Request, second: Request, before: Trail) returns (t: Trail)
    requires first != second && Walks(Single, before, Start(p), Picking(p, first, second, 2))
    ensures Walks(Single, t, Start(p), Dipped(p, first, second))
  {
    hide Walks, Crew, Stops, RunStep, AccumulateNext;
    var c := Single;
    var s2 := Picking(p, first, second, 2);
    var s3 := s2.(pc := Settle(0, [first, second], s2.pc.snap));
    Pair(first, second);
    assert s2.m.queues == Empty();
    t := Then(c, before, Start(p), s2, Batcher(Go), s3);
    t := Then(c, t, Start(p), s3, Batcher(Go), Dipped(p, first, second));
  }
}
