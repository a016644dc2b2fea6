/** One worker's handling of one batch: admission, the pre-send scan, the upstream call, the fan-out of results. */
module ProxyWorker {
  import opened Models
  import opened Ordering
  import opened Circuit

  datatype Failure = WorkerUnavailable | ContextDone | EncodeError

  /** What a result channel receives; `payload` is what the upstream returned for the request, if anything. */
  datatype Reply = Reply(requestId: nat, payload: Option<string>, error: Option<Failure>)

  /** A send on the result channel of `to`. */
  datatype Delivery = Delivery(to: Request, reply: Reply)

  /** The upstream's answer; a body that does not decode counts as an empty list. */
  datatype Upstream = TransportError | ServerError | Answer(results: seq<Option<string>>)

  /** What ends the watcher's i-th wait, and when: that request's context, the stop function, or the call's context. */
  datatype Wait = RequestDone(at: int) | Stop(at: int) | CallDone(at: int)

  /**
   What the environment does during one process call: the answer the upstream gives at `end` if nothing cancels the
   call, when the surviving requests' contexts are done, and what the watcher's waits see.
   */
  datatype World = World(unhealthy: bool, now: int, encodes: bool, upstream: Upstream, end: int,
                         doneAt: seq<Option<int>>, waits: seq<Wait>)

  /**
   A wait sees a context done only after it is; waits follow one another; and neither the stop function nor the end of
   the call's context comes before the call's own end, a timeout included.
   */
  ghost predicate Observes(doneAt: seq<Option<int>>, waits: seq<Wait>, end: int) {
    && |waits| == |doneAt|
    && (forall i :: 0 <= i < |waits| && waits[i].RequestDone? ==>
          doneAt[i].Some? && doneAt[i].value <= waits[i].at)
    && (forall i :: 0 <= i < |waits| && !waits[i].RequestDone? ==> end <= waits[i].at)
    && (forall i, j :: 0 <= i < j < |waits| ==> waits[i].at <= waits[j].at)
  }

  /** When the first n of the surviving clients have all gone, counted from `now`. */
  function LastGone(doneAt: seq<Option<int>>, now: int, n: nat): int
    requires n <= |doneAt|
  {
    if n == 0 then now
    else
      var before := LastGone(doneAt, now, n - 1);
      if doneAt[n - 1].Some? && doneAt[n - 1].value > before then doneAt[n - 1].value else before
  }

  /** The first n surviving clients go before the given time. */
  ghost predicate GoneBy(doneAt: seq<Option<int>>, n: nat, time: int) {
    n <= |doneAt| && forall i :: 0 <= i < n ==> doneAt[i].Some? && doneAt[i].value < time
  }

  /** The watcher loses no time: a wait for a client that goes before the answer ends as soon as it can. */
  ghost predicate Prompt(w: World) {
    forall i :: 0 <= i < |w.waits| && GoneBy(w.doneAt, i + 1, w.end) ==>
      w.waits[i] == RequestDone(LastGone(w.doneAt, w.now, i + 1))
  }

  datatype Status = Idle | Busy

  // ----- Specification -----

  /** The requests whose flag is false, in order. */
  function Live(s: seq<Request>, flags: seq<bool>): seq<Request>
    requires |flags| == |s|
  {
    if s == [] then []
    else Live(s[..|s| - 1], flags[..|s| - 1]) + (if flags[|s| - 1] then [] else [s[|s| - 1]])
  }

  function Negate(flags: seq<bool>): (n: seq<bool>)
    ensures |n| == |flags|
  {
    seq(|flags|, i requires 0 <= i < |flags| => !flags[i])
  }

  function Targets(d: seq<Delivery>): seq<Request> {
    seq(|d|, i requires 0 <= i < |d| => d[i].to)
  }

  /** One error reply per request, in order. */
  function AllFail(s: seq<Request>, error: Failure): seq<Delivery> {
    seq(|s|, i requires 0 <= i < |s| => Delivery(s[i], Reply(s[i].id, None, Some(error))))
  }

  /** The reply for the i-th request sent upstream: the i-th result, under the request's own ID. */
  function ReplyTo(s: seq<Request>, results: seq<Option<string>>, i: nat): Delivery
    requires i < |s|
  {
    Delivery(s[i], Reply(s[i].id, if i < |results| then results[i] else None, None))
  }

  /** Replies to the requests whose context is still alive after the response. */
  function FanOut(s: seq<Request>, results: seq<Option<string>>, gone: seq<bool>, n: nat): seq<Delivery>
    requires n <= |s| == |gone|
  {
    if n == 0 then []
    else FanOut(s, results, gone, n - 1) + (if gone[n - 1] then [] else [ReplyTo(s, results, n - 1)])
  }

  // ----- The loops -----

  /** The pre-send scan: requests whose context is done get a cancellation, the others go on, in order. */
  method FilterCancelled(batch: seq<Request>, done: seq<bool>) returns (live: seq<Request>, sends: seq<Delivery>)
    requires |done| == |batch|
    ensures live == Live(batch, done)
    ensures sends == AllFail(Live(batch, Negate(done)), ContextDone)
  {
    live, sends := [], [];
    for i := 0 to |batch|
      invariant live == Live(batch[..i], done[..i])
      invariant sends == AllFail(Live(batch[..i], Negate(done[..i])), ContextDone)
    {
      var req := batch[i];
      assert batch[..i + 1][..i] == batch[..i] && done[..i + 1][..i] == done[..i];
      assert Negate(done[..i + 1])[..i] == Negate(done[..i]);
      if done[i] {
        sends := sends + [Delivery(req, Reply(req.id, None, Some(ContextDone)))];
        continue;
      }
      live := live + [req];
    }
    assert batch[..|batch|] == batch && done[..|batch|] == done;
  }

  method FanOutError(batch: seq<Request>, error: Failure) returns (sends: seq<Delivery>)
    ensures sends == AllFail(batch, error)
  {
    sends := [];
    for i := 0 to |batch|
      invariant sends == AllFail(batch[..i], error)
    {
      sends := sends + [Delivery(batch[i], Reply(batch[i].id, None, Some(error)))];
    }
    assert batch[..|batch|] == batch;
  }

  method FanOutResults(batch: seq<Request>, results: seq<Option<string>>, gone: seq<bool>)
    returns (sends: seq<Delivery>)
    requires |gone| == |batch|
    ensures sends == FanOut(batch, results, gone, |batch|)
  {
    sends := [];
    for i := 0 to |batch|
      invariant sends == FanOut(batch, results, gone, i)
    {
      if gone[i] { continue; }
      var payload: Option<string> := None;
      if i < |results| { payload := results[i]; }
      sends := sends + [Delivery(batch[i], Reply(batch[i].id, payload, None))];
    }
  }

  /** When the watcher cancels the call: at its last wait, if every wait ended by its request's context. */
  function CancelAt(waits: seq<Wait>): Option<int> {
    if waits != [] && forall i :: 0 <= i < |waits| ==> waits[i].RequestDone? then Some(waits[|waits| - 1].at) else None
  }

  /** It cancels the call only once every surviving request's context is done, and then it does. */
  method Watch(ghost doneAt: seq<Option<int>>, waits: seq<Wait>, ghost end: int) returns (cancelled: Option<int>)
    requires waits != [] && Observes(doneAt, waits, end)
    ensures cancelled == CancelAt(waits)
    ensures cancelled.Some? ==> forall i :: 0 <= i < |doneAt| ==> doneAt[i].Some? && doneAt[i].value <= cancelled.value
  {
    var at := 0;
    for i := 0 to |waits|
      invariant forall j :: 0 <= j < i ==> waits[j].RequestDone?
      invariant i > 0 ==> at == waits[i - 1].at
      invariant forall j :: 0 <= j < i ==> doneAt[j].Some? && doneAt[j].value <= at
    {
      if !waits[i].RequestDone? { return None; }
      at := waits[i].at;
    }
    return Some(at);
  }

  /** How the call ends: a cancellation before the answer makes it a transport error. */
  function CallOf(w: World): (c: (Upstream, int)) {
    var cancelled := CancelAt(w.waits);
    if cancelled.Some? && cancelled.value < w.end then (TransportError, cancelled.value) else (w.upstream, w.end)
  }

  class ProxyWorker {
    const circuit: CircuitBreaker
    var status: Status
    var batchesProcessed: int
    var tokensProcessed: int

    constructor (circuit: CircuitBreaker)
      ensures this.circuit == circuit && status == Idle && batchesProcessed == 0 && tokensProcessed == 0
    {
      this.circuit := circuit;
      status, batchesProcessed, tokensProcessed := Idle, 0, 0;
    }

    /** `done[i]`: the pre-send scan finds batch[i] cancelled; `gone[i]`: the i-th survivor is so after the response. */
    method Process(batch: seq<Request>, w: World, done: seq<bool>, gone: seq<bool>) returns (sends: seq<Delivery>)
      requires Fits(batch, w, done, gone)
      modifies this, circuit
      ensures status == Idle
      ensures var t := TurnOf(w, Live(batch, done));
              circuit.View() == Turn(Life(old(circuit.View()), [], 0), t).b
      ensures sends == Sends(batch, w, done, gone, Admits(old(circuit.View()), w.now))
      ensures batchesProcessed - old(batchesProcessed)
              == if Delivers(w, Live(batch, done), Admits(old(circuit.View()), w.now)) then 1 else 0
      ensures tokensProcessed - old(tokensProcessed)
              == if Delivers(w, Live(batch, done), Admits(old(circuit.View()), w.now))
                 then TotalTokens(Live(batch, done)) else 0
      ensures var asked := !w.unhealthy;
              var since := w.now - old(circuit.lastFailureTime);
              var admitted := old(circuit.state) == Open ==> since >= circuit.recoveryTimeout;
              var called := asked && admitted && Live(batch, done) != [] && w.encodes;
              (!asked || !admitted ==> circuit.state == old(circuit.state))
              && circuit.failureCount == (if !called then old(circuit.failureCount)
                                          else if CallOf(w).0.Answer? then 0 else old(circuit.failureCount) + 1)
              && circuit.lastFailureTime
                 == (if called && !CallOf(w).0.Answer? then CallOf(w).1 else old(circuit.lastFailureTime))
    {
      status := Busy;
      if w.unhealthy {
        sends := FanOutError(batch, WorkerUnavailable);
        status := Idle;
        return;
      }
      var ok := circuit.CanExecute(w.now);
      if !ok {
        sends := FanOutError(batch, WorkerUnavailable);
        status := Idle;
        return;
      }
      var live, cancels := FilterCancelled(batch, done);
      if live == [] {
        status := Idle;
        return cancels;
      }
      var more: seq<Delivery>;
      if !w.encodes {
        more := FanOutError(live, EncodeError);
      } else {
        var cancelled := Watch(w.doneAt, w.waits, w.end);
        var upstream, end := w.upstream, w.end;
        if cancelled.Some? && cancelled.value < w.end { upstream, end := TransportError, cancelled.value; }
        if upstream.TransportError? || upstream.ServerError? {
          circuit.RecordFailure(end);
          more := FanOutError(live, WorkerUnavailable);
        } else {
          circuit.RecordSuccess();
          more := FanOutResults(live, upstream.results, gone);
          batchesProcessed := batchesProcessed + 1;
          tokensProcessed := tokensProcessed + TotalTokens(live);
        }
      }
      status := Idle;
      return cancels + more;
    }

    /** The loop of Run over the batches it takes: the breaker is where its turns leave it; the sends follow from it. */
    method Run(jobs: seq<Job>) returns (sends: seq<Delivery>)
      requires circuit.View() == Fresh(circuit.failureThreshold, circuit.recoveryTimeout)
      requires forall i :: 0 <= i < |jobs| ==> JobOk(jobs[i])
      modifies this, circuit
      ensures circuit.View() == Lived(circuit.failureThreshold, circuit.recoveryTimeout, TurnsOf(jobs)).b
      ensures sends == SendsOf(circuit.failureThreshold, circuit.recoveryTimeout, jobs)
    {
      ghost var threshold, recovery := circuit.failureThreshold, circuit.recoveryTimeout;
      sends := [];
      hide Lived, TurnsOf, SendsOf, Sends, TurnOf, Turn;
      NoJobs(threshold, recovery);
      for i := 0 to |jobs|
        invariant circuit.View() == Lived(threshold, recovery, TurnsOf(jobs[..i])).b
        invariant sends == SendsOf(threshold, recovery, jobs[..i])
      {
        var j := jobs[i];
        assert JobOk(j);
        NextJob(threshold, recovery, jobs, i);
        var more := Process(j.batch, j.w, j.done, j.gone);
        sends := sends + more;
      }
      assert jobs[..|jobs|] == jobs;
    }
  }

  function TotalTokens(s: seq<Request>): int {
    if s == [] then 0 else s[0].estimatedTokens + TotalTokens(s[1..])
  }

  /** The environment speaks of the requests that are there. */
  ghost predicate Fits(batch: seq<Request>, w: World, done: seq<bool>, gone: seq<bool>) {
    && |done| == |batch| && |gone| == |Live(batch, done)|
    && |w.waits| == |Live(batch, done)| && Observes(w.doneAt, w.waits, w.end)
  }

  /** The breaker is consulted unless the upstream is flagged, and told of transport outcomes only. */
  function TurnOf(w: World, live: seq<Request>): Circuit.Batch {
    Circuit.Batch(!w.unhealthy, w.now,
                  if live == [] || !w.encodes then None else Some((CallOf(w).0.Answer?, CallOf(w).1)))
  }

  /** The call reaches the fan-out of results. */
  predicate Delivers(w: World, live: seq<Request>, admitted: bool) {
    !w.unhealthy && admitted && live != [] && w.encodes && CallOf(w).0.Answer?
  }

  function Sends(batch: seq<Request>, w: World, done: seq<bool>, gone: seq<bool>, admitted: bool): seq<Delivery>
    requires |done| == |batch| && |gone| == |Live(batch, done)|
  {
    var live := Live(batch, done);
    if w.unhealthy || !admitted then AllFail(batch, WorkerUnavailable)
    else
      AllFail(Live(batch, Negate(done)), ContextDone)
      + (if live == [] then []
         else if !w.encodes then AllFail(live, EncodeError)
         else if !CallOf(w).0.Answer? then AllFail(live, WorkerUnavailable)
         else FanOut(live, w.upstream.results, gone, |live|))
  }

  /**
   A failure is recorded exactly when the upstream failed or the watcher had seen every surviving client gone before
   the answer; in the second case all their contexts were done when the failure was recorded.
   */
  lemma FailuresOf(w: World, live: seq<Request>)
    requires |w.waits| == |live| && Observes(w.doneAt, w.waits, w.end) && live != [] && w.encodes
    ensures var outcome, cancelled := TurnOf(w, live).outcome.value, CancelAt(w.waits);
            (!outcome.0 <==> !w.upstream.Answer? || (cancelled.Some? && cancelled.value < w.end))
            && (!outcome.0 && w.upstream.Answer? ==>
                  forall i :: 0 <= i < |live| ==> w.doneAt[i].Some? && w.doneAt[i].value <= outcome.1 < w.end)
  {
    if CancelAt(w.waits).Some? {
      var n := |w.waits| - 1;
      assert forall i :: 0 <= i < n ==> w.waits[i].at <= w.waits[n].at;
    }
  }

  lemma {:induction false} LastGoneBefore(doneAt: seq<Option<int>>, now: int, n: nat, time: int)
    requires GoneBy(doneAt, n, time) && now < time
    ensures LastGone(doneAt, now, n) < time
  {
    if n > 0 { LastGoneBefore(doneAt, now, n - 1, time); }
  }

  /**
   With a prompt watcher a failure is recorded exactly when the upstream failed or every surviving client goes before
   it answers; in the second case, at the moment the last of them goes.
   */
  lemma FailuresWhenPrompt(w: World, live: seq<Request>)
    requires |w.waits| == |live| && Observes(w.doneAt, w.waits, w.end) && live != [] && w.encodes
    requires Prompt(w) && w.now < w.end
    ensures var outcome := TurnOf(w, live).outcome.value;
            (!outcome.0 <==> !w.upstream.Answer? || GoneBy(w.doneAt, |live|, w.end))
            && (GoneBy(w.doneAt, |live|, w.end) ==> outcome == (false, LastGone(w.doneAt, w.now, |live|)))
  {
    var n := |live|;
    FailuresOf(w, live);
    if GoneBy(w.doneAt, n, w.end) {
      LastGoneBefore(w.doneAt, w.now, n, w.end);
      forall i | 0 <= i < n
        ensures w.waits[i] == RequestDone(LastGone(w.doneAt, w.now, i + 1))
      {
        assert GoneBy(w.doneAt, i + 1, w.end);
      }
    }
  }

  /** The batch goes upstream if the breaker admits it: the upstream is not flagged, someone survives, it encodes. */
  ghost predicate Calls(j: Job)
    requires |j.done| == |j.batch|
  {
    !j.w.unhealthy && j.w.encodes && exists i :: 0 <= i < |j.batch| && !j.done[i]
  }

  lemma {:induction false} SomeSurvivor(s: seq<Request>, flags: seq<bool>)
    requires |flags| == |s|
    ensures Live(s, flags) != [] <==> exists i :: 0 <= i < |s| && !flags[i]
  {
    if s != [] {
      var n := |s| - 1;
      SomeSurvivor(s[..n], flags[..n]);
      if i :| 0 <= i < n && !flags[i] { assert !flags[..n][i]; }
    }
  }

  /**
   A job adds a call to the breaker's history exactly when it goes upstream and the breaker admits it: it has not
   tripped, or the recovery timeout has passed.
   */
  lemma JobRecordsIff(threshold: int, recovery: int, turns: seq<Circuit.Batch>, j: Job)
    requires threshold >= 1 && Ordered(threshold, recovery, turns) && JobOk(j)
    requires InTime(Lived(threshold, recovery, turns), TurnOf(j.w, Live(j.batch, j.done)))
    ensures var calls := Lived(threshold, recovery, turns).calls;
            var tripped := Trailing(calls, Succeeded) >= threshold;
            (tripped ==> calls != [])
            && Lived(threshold, recovery, turns + [TurnOf(j.w, Live(j.batch, j.done))]).calls
               == if Calls(j) && (tripped ==> j.w.now >= calls[|calls| - 1].end + recovery)
                  then calls + [Call(j.w.now, CallOf(j.w).1, CallOf(j.w).0.Answer?)] else calls
  {
    var t := TurnOf(j.w, Live(j.batch, j.done));
    SomeSurvivor(j.batch, j.done);
    LifeSound(threshold, recovery, turns);
    if t.asks && t.outcome.Some? {
      AdmittedIff(threshold, recovery, turns, t);
    } else {
      LivedSnoc(threshold, recovery, turns, t);
    }
    hide Lived, Ordered, Live, CallOf;
  }

  /** Jobs that never go upstream leave the breaker fresh. */
  lemma {:induction false} NoCallsStayFresh(threshold: int, recovery: int, jobs: seq<Job>)
    requires forall i :: 0 <= i < |jobs| ==> JobOk(jobs[i]) && !Calls(jobs[i])
    ensures Lived(threshold, recovery, TurnsOf(jobs)).b == Fresh(threshold, recovery)
  {
    if jobs != [] {
      var n := |jobs| - 1;
      NoCallsStayFresh(threshold, recovery, jobs[..n]);
      SomeSurvivor(jobs[n].batch, jobs[n].done);
      assert JobOk(jobs[n]);
      LivedSnoc(threshold, recovery, TurnsOf(jobs[..n]), TurnOf(jobs[n].w, Live(jobs[n].batch, jobs[n].done)));
    }
  }

  // ----- Disconnecting clients trip the breaker -----

  /** The i-th batch of one request: its client goes at once, and the upstream would have answered. */
  function Disconnect(r: Request, i: nat): Job {
    Job([r], World(false, 10 * i, true, Answer([Some("")]), 10 * i + 9, [Some(10 * i + 1)], [RequestDone(10 * i + 1)]),
        [false], [true])
  }

  lemma DisconnectFails(r: Request, i: nat)
    ensures var j := Disconnect(r, i);
            Live(j.batch, j.done) == [r] && JobOk(j) && Prompt(j.w)
            && TurnOf(j.w, [r]) == Circuit.Batch(true, 10 * i, Some((false, 10 * i + 1)))
  {
    var w := Disconnect(r, i).w;
    assert Live([r], [false]) == [r];
    assert LastGone(w.doneAt, w.now, 1) == 10 * i + 1 by { assert LastGone(w.doneAt, w.now, 0) == 10 * i; }
  }

  /** The breaker after n turns that all fail, up to the threshold. */
  lemma {:induction false} FailuresTrip(threshold: int, recovery: int, turns: seq<Circuit.Batch>)
    requires |turns| <= threshold
    requires forall i :: 0 <= i < |turns| ==> turns[i].asks && turns[i].outcome.Some? && !turns[i].outcome.value.0
    ensures var b := Lived(threshold, recovery, turns).b;
            b.failureCount == |turns| && b.failureThreshold == threshold
            && (|turns| > 0 ==> b.state == if |turns| == threshold then Open else Closed)
            && (turns == [] ==> b.state == Closed)
  {
    if turns != [] { FailuresTrip(threshold, recovery, turns[..|turns| - 1]); }
  }

  lemma {:induction false} TurnsAt(jobs: seq<Job>, i: nat)
    requires i < |jobs| && forall k :: 0 <= k < |jobs| ==> JobOk(jobs[k])
    ensures TurnsOf(jobs)[i] == TurnOf(jobs[i].w, Live(jobs[i].batch, jobs[i].done))
  {
    var n := |jobs| - 1;
    assert JobOk(jobs[n]);
    if i < n {
      TurnsAt(jobs[..n], i);
      hide Live, TurnOf;
    }
  }

  /**
   A breaker of any threshold trips on that many batches whose clients go before the answer, though the upstream
   answers every call.
   */
  method DisconnectsTripBreaker(r: Request, threshold: nat, recovery: nat) returns (jobs: seq<Job>, cb: CircuitBreaker)
    requires threshold >= 1
    ensures |jobs| == threshold && forall i :: 0 <= i < |jobs| ==> JobOk(jobs[i])
    ensures forall i :: 0 <= i < |jobs| ==> Prompt(jobs[i].w) && jobs[i].w.upstream.Answer?
    ensures fresh(cb) && cb.View() == Lived(threshold, recovery, TurnsOf(jobs)).b && cb.state == Open
  {
    hide JobOk, Prompt, TurnsOf, Lived, Disconnect;
    cb := new CircuitBreaker(threshold, recovery);
    var worker := new ProxyWorker(cb);
    jobs := seq(threshold, i requires 0 <= i < threshold => Disconnect(r, i));
    AllDisconnect(r, jobs, threshold, recovery);
    var _ := worker.Run(jobs);
  }

  lemma AllDisconnect(r: Request, jobs: seq<Job>, threshold: nat, recovery: nat)
    requires |jobs| == threshold >= 1 && forall i :: 0 <= i < threshold ==> jobs[i] == Disconnect(r, i)
    ensures forall i :: 0 <= i < |jobs| ==> JobOk(jobs[i])
    ensures forall i :: 0 <= i < |jobs| ==> Prompt(jobs[i].w) && jobs[i].w.upstream.Answer?
    ensures Lived(threshold, recovery, TurnsOf(jobs)).b.state == Open
  {
    hide JobOk, Prompt, TurnsOf, Lived, TurnOf, Live;
    forall i | 0 <= i < |jobs|
      ensures JobOk(jobs[i]) && Prompt(jobs[i].w) && jobs[i].w.upstream.Answer?
    {
      DisconnectFails(r, i);
    }
    forall i | 0 <= i < |jobs|
      ensures var t := TurnsOf(jobs)[i]; t.asks && t.outcome.Some? && !t.outcome.value.0
    {
      TurnsAt(jobs, i);
      DisconnectFails(r, i);
    }
    FailuresTrip(threshold, recovery, TurnsOf(jobs));
  }

  // ----- The worker's loop -----

  /** One batch taken by the worker. */
  datatype Job = Job(batch: seq<Request>, w: World, done: seq<bool>, gone: seq<bool>)

  ghost predicate JobOk(j: Job) { Fits(j.batch, j.w, j.done, j.gone) }

  /** The breaker's turns over the worker's jobs. */
  ghost function TurnsOf(jobs: seq<Job>): (turns: seq<Circuit.Batch>)
    requires forall i :: 0 <= i < |jobs| ==> JobOk(jobs[i])
    ensures |turns| == |jobs|
  {
    if jobs == [] then []
    else
      var n := |jobs| - 1;
      assert JobOk(jobs[n]);
      TurnsOf(jobs[..n]) + [TurnOf(jobs[n].w, Live(jobs[n].batch, jobs[n].done))]
  }

  /** All sends of the worker over its jobs, each admitted or not by the breaker its past turns left. */
  ghost function SendsOf(threshold: int, recovery: int, jobs: seq<Job>): seq<Delivery>
    requires forall i :: 0 <= i < |jobs| ==> JobOk(jobs[i])
  {
    if jobs == [] then []
    else
      var n := |jobs| - 1;
      assert JobOk(jobs[n]);
      var j, b := jobs[n], Lived(threshold, recovery, TurnsOf(jobs[..n])).b;
      SendsOf(threshold, recovery, jobs[..n]) + Sends(j.batch, j.w, j.done, j.gone, Admits(b, j.w.now))
  }

  lemma NoJobs(threshold: int, recovery: int)
    ensures Lived(threshold, recovery, TurnsOf([])).b == Fresh(threshold, recovery)
    ensures SendsOf(threshold, recovery, []) == []
  {
  }

  lemma NextJob(threshold: int, recovery: int, jobs: seq<Job>, i: nat)
    requires i < |jobs| && forall k :: 0 <= k < |jobs| ==> JobOk(jobs[k])
    ensures var j, b := jobs[i], Lived(threshold, recovery, TurnsOf(jobs[..i])).b;
            JobOk(j)
            && Lived(threshold, recovery, TurnsOf(jobs[..i + 1])).b
               == Turn(Life(b, [], 0), TurnOf(j.w, Live(j.batch, j.done))).b
            && SendsOf(threshold, recovery, jobs[..i + 1])
               == SendsOf(threshold, recovery, jobs[..i]) + Sends(j.batch, j.w, j.done, j.gone, Admits(b, j.w.now))
  {
    var j := jobs[i];
    assert JobOk(j) && jobs[..i + 1][..i] == jobs[..i];
    var turns, t := TurnsOf(jobs[..i]), TurnOf(j.w, Live(j.batch, j.done));
    assert TurnsOf(jobs[..i + 1]) == turns + [t];
    hide Live, TurnOf, Sends;
    LivedSnoc(threshold, recovery, turns, t);
    TurnBreaker(Lived(threshold, recovery, turns), t);
  }

  // ----- Every request is accounted for -----

  lemma {:induction false} LiveSplits(s: seq<Request>, flags: seq<bool>, x: Request)
    requires |flags| == |s|
    ensures Count(Live(s, flags), x) + Count(Live(s, Negate(flags)), x) == Count(s, x)
  {
    if s != [] {
      var n := |s| - 1;
      LiveSplits(s[..n], flags[..n], x);
      assert Negate(flags)[..n] == Negate(flags[..n]);
      var kept, lost := Live(s[..n], flags[..n]), Live(s[..n], Negate(flags[..n]));
      CountSnoc(kept, s[n], x);
      CountSnoc(lost, s[n], x);
      assert kept + [] == kept && lost + [] == lost;
      assert Live(s, flags) == kept + (if flags[n] then [] else [s[n]]);
      assert Live(s, Negate(flags)) == lost + (if flags[n] then [s[n]] else []);
    }
  }

  lemma {:induction false} FanOutTargets(s: seq<Request>, results: seq<Option<string>>, gone: seq<bool>, n: nat)
    requires n <= |s| == |gone|
    ensures Targets(FanOut(s, results, gone, n)) == Live(s[..n], gone[..n])
  {
    if n > 0 {
      FanOutTargets(s, results, gone, n - 1);
      assert s[..n][..n - 1] == s[..n - 1] && gone[..n][..n - 1] == gone[..n - 1];
    }
  }

  /** The survivors whose context is done once the upstream has answered; nobody else goes without a send. */
  function Silent(batch: seq<Request>, w: World, done: seq<bool>, gone: seq<bool>, admitted: bool): seq<Request>
    requires |done| == |batch| && |gone| == |Live(batch, done)|
  {
    if Delivers(w, Live(batch, done), admitted) then Live(Live(batch, done), Negate(gone)) else []
  }

  lemma TargetsAppend(a: seq<Delivery>, b: seq<Delivery>)
    ensures Targets(a + b) == Targets(a) + Targets(b)
  {
  }

  lemma TargetsAllFail(s: seq<Request>, error: Failure)
    ensures Targets(AllFail(s, error)) == s
  {
  }

  /** The sends after the pre-send scan reach each survivor once, but for the silent ones. */
  lemma FanOutPartitions(s: seq<Request>, results: seq<Option<string>>, gone: seq<bool>, x: Request)
    requires |gone| == |s|
    ensures Count(Targets(FanOut(s, results, gone, |s|)), x) + Count(Live(s, Negate(gone)), x) == Count(s, x)
  {
    FanOutTargets(s, results, gone, |s|);
    assert s[..|s|] == s && gone[..|s|] == gone;
    LiveSplits(s, gone, x);
  }

  /** Each request of the batch gets exactly one send, or is one of the silent ones. */
  lemma ProcessPartitions(batch: seq<Request>, w: World, done: seq<bool>, gone: seq<bool>, admitted: bool, x: Request)
    requires |done| == |batch| && |gone| == |Live(batch, done)|
    ensures Count(Targets(Sends(batch, w, done, gone, admitted)), x) + Count(Silent(batch, w, done, gone, admitted), x)
            == Count(batch, x)
  {
    hide Count, Live, FanOut, Targets, AllFail, Negate;
    TargetsAllFail(batch, WorkerUnavailable);
    assert Count([], x) == 0 by { CountNone(x); }
    if !w.unhealthy && admitted {
      var live, dead := Live(batch, done), Live(batch, Negate(done));
      var first, sends := AllFail(dead, ContextDone), Sends(batch, w, done, gone, admitted);
      LiveSplits(batch, done, x);
      TargetsAllFail(dead, ContextDone);
      TargetsAllFail(live, EncodeError);
      TargetsAllFail(live, WorkerUnavailable);
      if CallOf(w).0.Answer? { FanOutPartitions(live, w.upstream.results, gone, x); }
      var rest := sends[|first|..];
      assert sends == first + rest;
      TargetsAppend(first, rest);
      CountAppend(Targets(first), Targets(rest), x);
      assert Targets([]) == [] by { TargetsNone(); }
    }
  }

  lemma CountNone(x: Request)
    ensures Count([], x) == 0
  {
  }

  lemma TargetsNone()
    ensures Targets([]) == []
  {
  }

  /** The i-th surviving request, if still alive, is sent the i-th upstream result under its own ID. */
  lemma ResultsAlign(s: seq<Request>, results: seq<Option<string>>, gone: seq<bool>, d: Delivery)
    requires |gone| == |s|
    ensures d in FanOut(s, results, gone, |s|)
            <==> exists i: nat ::
                   i < |s| && !gone[i]
                   && d == Delivery(s[i], Reply(s[i].id, if i < |results| then results[i] else None, None))
  {
    AlignTo(s, results, gone, d, |s|);
  }

  lemma {:induction false} AlignTo(s: seq<Request>, results: seq<Option<string>>, gone: seq<bool>, d: Delivery, n: nat)
    requires n <= |s| == |gone|
    ensures d in FanOut(s, results, gone, n) <==> exists i: nat :: i < n && !gone[i] && d == ReplyTo(s, results, i)
  {
    if n > 0 { AlignTo(s, results, gone, d, n - 1); }
  }

  /** What each send says: who is told what, and under which ID. */
  lemma SendsSay(batch: seq<Request>, w: World, done: seq<bool>, gone: seq<bool>, admitted: bool, d: Delivery)
    requires |done| == |batch| && |gone| == |Live(batch, done)| && d in Sends(batch, w, done, gone, admitted)
    ensures d.reply.requestId == d.to.id && d.to in batch
    ensures w.unhealthy || !admitted ==> d.reply.error == Some(WorkerUnavailable)
    ensures !w.unhealthy && admitted ==>
      || (exists i :: 0 <= i < |batch| && done[i] && d.to == batch[i] && d.reply.error == Some(ContextDone))
      || (exists i :: 0 <= i < |batch| && !done[i] && d.to == batch[i]
                      && d.reply.error == if !w.encodes then Some(EncodeError)
                                          else if !CallOf(w).0.Answer? then Some(WorkerUnavailable) else None)
    ensures d.reply.error.Some? ==> d.reply.payload.None?
  {
    if !w.unhealthy && admitted {
      var live, dead := Live(batch, done), Live(batch, Negate(done));
      if d in AllFail(dead, ContextDone) {
        var i := LiveAt(batch, Negate(done), d.to);
      } else {
        if w.encodes && CallOf(w).0.Answer? { ResultsAlign(live, w.upstream.results, gone, d); }
        var i := LiveAt(batch, done, d.to);
      }
    }
  }

  lemma LiveAt(s: seq<Request>, flags: seq<bool>, x: Request) returns (i: nat)
    requires |flags| == |s| && x in Live(s, flags)
    ensures i < |s| && !flags[i] && s[i] == x
  {
    var at := LiveOrder(s, flags);
    var k :| 0 <= k < |at| && Live(s, flags)[k] == x;
    i := at[k];
  }

  /** Tokens add up over the requests. */
  lemma {:induction false} TokensAddUp(s: seq<Request>, r: Request)
    ensures TotalTokens([]) == 0
    ensures TotalTokens(s + [r]) == TotalTokens(s) + r.estimatedTokens
  {
    if s == [] {
      assert [] + [r] == [r] && [r][1..] == [];
    } else {
      TokensAddUp(s[1..], r);
      assert (s + [r])[1..] == s[1..] + [r];
    }
  }

  /** Filtering keeps the order: survivors are a subsequence of the batch. */
  lemma {:induction false} LiveOrder(s: seq<Request>, flags: seq<bool>) returns (at: seq<nat>)
    requires |flags| == |s|
    ensures |at| == |Live(s, flags)|
    ensures forall i :: 0 <= i < |at| ==> at[i] < |s| && !flags[at[i]] && Live(s, flags)[i] == s[at[i]]
    ensures forall i, j :: 0 <= i < j < |at| ==> at[i] < at[j]
  {
    if s == [] {
      at := [];
    } else {
      var n := |s| - 1;
      at := LiveOrder(s[..n], flags[..n]);
      var kept := Live(s[..n], flags[..n]);
      assert Live(s, flags) == if flags[n] then kept else kept + [s[n]];
      hide Live;
      if !flags[n] { at := at + [n]; }
    }
  }
}
