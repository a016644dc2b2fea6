/**
 The per-worker circuit breaker, and the upstream health flag. The breaker's three fields are proved to be a
 summary of its call history when one worker drives it: each turn asks at most once and records at most once,
 on a clock that never goes back.
 */
module Circuit {
  import opened Arithmetic
  import opened Models

  datatype CircuitState = Closed | Open | HalfOpen

  datatype Breaker = Breaker(state: CircuitState, failureCount: int, lastFailureTime: int,
                             failureThreshold: int, recoveryTimeout: int)

  // ----- The operations on values -----

  function Fresh(threshold: int, recovery: int): Breaker {
    Breaker(Closed, 0, 0, threshold, recovery)
  }

  function AfterSuccess(b: Breaker): Breaker {
    b.(failureCount := 0, state := if b.state == HalfOpen then Closed else b.state)
  }

  function AfterFailure(b: Breaker, now: int): Breaker {
    b.(failureCount := b.failureCount + 1, lastFailureTime := now,
       state := if b.failureCount + 1 >= b.failureThreshold then Open else b.state)
  }

  predicate Admits(b: Breaker, now: int) {
    b.state != Open || now - b.lastFailureTime >= b.recoveryTimeout
  }

  function AfterAsk(b: Breaker, now: int): Breaker {
    if b.state == Open && Admits(b, now) then b.(state := HalfOpen) else b
  }

  // ----- The object -----

  class CircuitBreaker {
    var state: CircuitState
    var failureCount: int
    var lastFailureTime: int
    const failureThreshold: int
    const recoveryTimeout: int

    function View(): Breaker
      reads this
    {
      Breaker(state, failureCount, lastFailureTime, failureThreshold, recoveryTimeout)
    }

    constructor (threshold: int, recovery: int)
      ensures View() == Fresh(threshold, recovery)
    {
      state, failureCount, lastFailureTime := Closed, 0, 0;
      failureThreshold, recoveryTimeout := threshold, recovery;
    }

    method RecordSuccess()
      modifies this
      ensures View() == AfterSuccess(old(View()))
      ensures failureCount == 0 && lastFailureTime == old(lastFailureTime)
      ensures state == if old(state) == HalfOpen then Closed else old(state)
    {
      failureCount := 0;
      if state == HalfOpen { state := Closed; }
    }

    method RecordFailure(now: int)
      modifies this
      ensures View() == AfterFailure(old(View()), now)
      ensures failureCount == old(failureCount) + 1 && lastFailureTime == now
      ensures state == if failureCount >= failureThreshold then Open else old(state)
    {
      failureCount := failureCount + 1;
      lastFailureTime := now;
      if failureCount >= failureThreshold { state := Open; }
    }

    method CanExecute(now: int) returns (ok: bool)
      modifies this
      ensures ok == Admits(old(View()), now) && View() == AfterAsk(old(View()), now)
      ensures ok <==> old(state) == Open ==> now - old(lastFailureTime) >= recoveryTimeout
      ensures state == if ok && old(state) == Open then HalfOpen else old(state)
      ensures failureCount == old(failureCount) && lastFailureTime == old(lastFailureTime)
    {
      match state
      case Closed => return true;
      case Open =>
        if now - lastFailureTime >= recoveryTimeout {
          state := HalfOpen;
          return true;
        }
        return false;
      case HalfOpen => return true;
    }

    method Reset()
      modifies this
      ensures View() == Fresh(failureThreshold, recoveryTimeout)
    {
      state, failureCount, lastFailureTime := Closed, 0, 0;
    }
  }

  // ----- One worker's use of it -----

  /** An upstream call that was recorded. */
  datatype Call = Call(start: int, end: int, success: bool)

  /**
   One batch: whether the breaker is asked (it is not while the upstream is flagged unhealthy), when, and what is
   recorded if it admits the batch; nothing is when every request was cancelled or the batch did not encode.
   */
  datatype Batch = Batch(asks: bool, at: int, outcome: Option<(bool, int)>)

  datatype Life = Life(b: Breaker, calls: seq<Call>, clock: int)

  function Turn(l: Life, t: Batch): Life {
    if !t.asks then l
    else
      var b := AfterAsk(l.b, t.at);
      if !Admits(l.b, t.at) || t.outcome.None? then Life(b, l.calls, t.at)
      else
        var (ok, end) := t.outcome.value;
        Life(if ok then AfterSuccess(b) else AfterFailure(b, end), l.calls + [Call(t.at, end, ok)], end)
  }

  function Lived(threshold: int, recovery: int, turns: seq<Batch>): Life {
    if turns == [] then Life(Fresh(threshold, recovery), [], 0)
    else Turn(Lived(threshold, recovery, turns[..|turns| - 1]), turns[|turns| - 1])
  }

  predicate InTime(l: Life, t: Batch) {
    t.asks ==> l.clock <= t.at && (t.outcome.Some? ==> t.at <= t.outcome.value.1)
  }

  /** The clock never goes back over the turns. */
  ghost predicate Ordered(threshold: int, recovery: int, turns: seq<Batch>) {
    forall i :: 0 <= i < |turns| ==> InTime(Lived(threshold, recovery, turns[..i]), turns[i])
  }

  lemma LivedSnoc(threshold: int, recovery: int, turns: seq<Batch>, t: Batch)
    ensures Lived(threshold, recovery, turns + [t]) == Turn(Lived(threshold, recovery, turns), t)
  {
    assert (turns + [t])[..|turns|] == turns;
    hide Turn;
  }

  /** What a turn does to the breaker depends on the breaker alone. */
  lemma TurnBreaker(l: Life, t: Batch)
    ensures Turn(l, t).b == Turn(Life(l.b, [], 0), t).b
  {
  }

  /** Length of the run of failures at the end. */
  function Trailing<T>(s: seq<T>, ok: T -> bool): nat {
    if s == [] || ok(s[|s| - 1]) then 0 else 1 + Trailing(s[..|s| - 1], ok)
  }

  function Succeeded(c: Call): bool { c.success }

  /** After a run of failures that trips the breaker, the next call waits out the recovery timeout. */
  ghost predicate Spaced(calls: seq<Call>, threshold: int, recovery: int) {
    forall m :: 0 <= m < |calls| - 1 ==> WaitsOut(calls, m, threshold, recovery)
  }

  ghost predicate WaitsOut(calls: seq<Call>, m: nat, threshold: int, recovery: int)
    requires m < |calls| - 1
  {
    Trailing(calls[..m + 1], Succeeded) >= threshold ==> calls[m + 1].start >= calls[m].end + recovery
  }

  ghost predicate Calm(calls: seq<Call>) {
    (forall m :: 0 <= m < |calls| ==> calls[m].start <= calls[m].end)
    && forall m :: 0 <= m < |calls| - 1 ==> calls[m].end <= calls[m + 1].start
  }

  /** What the breaker's fields say about its history. */
  ghost predicate Sound(l: Life) {
    && l.b.failureCount == Trailing(l.calls, Succeeded)
    && (l.b.state == Closed <==> l.b.failureCount < l.b.failureThreshold)
    && (l.b.failureCount > 0 ==> l.b.lastFailureTime == l.calls[|l.calls| - 1].end)
    && (l.b.state == HalfOpen ==> l.clock >= l.b.lastFailureTime + l.b.recoveryTimeout)
    && (l.calls != [] ==> l.calls[|l.calls| - 1].end <= l.clock)
    && Spaced(l.calls, l.b.failureThreshold, l.b.recoveryTimeout) && Calm(l.calls)
  }

  lemma TrailingSnoc<T>(s: seq<T>, x: T, ok: T -> bool)
    ensures Trailing(s + [x], ok) == if ok(x) then 0 else Trailing(s, ok) + 1
  {
    assert (s + [x])[..|s|] == s;
  }

  /** It is the longest such run: all of it failures, and a success before it, if anything. */
  lemma {:induction false} TrailingIs<T>(s: seq<T>, ok: T -> bool)
    ensures var n := Trailing(s, ok);
            n <= |s| && (forall i :: |s| - n <= i < |s| ==> !ok(s[i])) && (n < |s| ==> ok(s[|s| - n - 1]))
  {
    if s != [] && !ok(s[|s| - 1]) { TrailingIs(s[..|s| - 1], ok); }
  }

  lemma SpacedSnoc(calls: seq<Call>, c: Call, threshold: int, recovery: int)
    requires Spaced(calls, threshold, recovery)
    requires calls != [] && Trailing(calls, Succeeded) >= threshold ==> c.start >= calls[|calls| - 1].end + recovery
    ensures Spaced(calls + [c], threshold, recovery)
  {
    hide WaitsOut;
    var more := calls + [c];
    forall m | 0 <= m < |more| - 1
      ensures WaitsOut(more, m, threshold, recovery)
    {
      WaitsOutSnoc(calls, c, m, threshold, recovery);
    }
  }

  lemma WaitsOutSnoc(calls: seq<Call>, c: Call, m: nat, threshold: int, recovery: int)
    requires m < |calls|
    requires m < |calls| - 1 ==> WaitsOut(calls, m, threshold, recovery)
    requires m == |calls| - 1 && Trailing(calls, Succeeded) >= threshold ==> c.start >= calls[m].end + recovery
    ensures WaitsOut(calls + [c], m, threshold, recovery)
  {
    hide Trailing;
    assert (calls + [c])[..m + 1] == calls[..m + 1];
    if m == |calls| - 1 { assert calls[..m + 1] == calls; }
  }

  lemma CalmSnoc(calls: seq<Call>, c: Call)
    requires Calm(calls) && c.start <= c.end && (calls != [] ==> calls[|calls| - 1].end <= c.start)
    ensures Calm(calls + [c])
  {
  }

  lemma TurnSound(l: Life, t: Batch)
    requires l.b.failureThreshold >= 1 && Sound(l) && InTime(l, t)
    ensures Sound(Turn(l, t))
  {
    hide Spaced, Calm, Trailing;
    if t.asks && Admits(l.b, t.at) && t.outcome.Some? {
      var (ok, end) := t.outcome.value;
      var c := Call(t.at, end, ok);
      TrailingSnoc(l.calls, c, Succeeded);
      CalmSnoc(l.calls, c);
      SpacedSnoc(l.calls, c, l.b.failureThreshold, l.b.recoveryTimeout);
    }
  }

  lemma LivedParameters(threshold: int, recovery: int, turns: seq<Batch>)
    ensures var b := Lived(threshold, recovery, turns).b;
            b.failureThreshold == threshold && b.recoveryTimeout == recovery
  {
  }

  lemma OrderedPrefix(threshold: int, recovery: int, turns: seq<Batch>, n: nat)
    requires Ordered(threshold, recovery, turns) && n <= |turns|
    ensures Ordered(threshold, recovery, turns[..n])
  {
    hide Lived, InTime;
    forall i | 0 <= i < n
      ensures InTime(Lived(threshold, recovery, turns[..n][..i]), turns[..n][i])
    {
      assert turns[..n][..i] == turns[..i];
    }
  }

  /** After any turns of one worker, the fields are a summary of the calls it recorded. */
  lemma {:induction false} LifeSound(threshold: int, recovery: int, turns: seq<Batch>)
    requires threshold >= 1 && Ordered(threshold, recovery, turns)
    ensures Sound(Lived(threshold, recovery, turns))
    ensures var b := Lived(threshold, recovery, turns).b;
            b.failureThreshold == threshold && b.recoveryTimeout == recovery
  {
    LivedParameters(threshold, recovery, turns);
    if turns != [] {
      var n := |turns| - 1;
      var before := Lived(threshold, recovery, turns[..n]);
      OrderedPrefix(threshold, recovery, turns, n);
      LifeSound(threshold, recovery, turns[..n]);
      assert InTime(before, turns[n]);
      hide Sound, Turn, InTime, Ordered;
      TurnSound(before, turns[n]);
    }
  }

  /** failureCount is the run of failures at the end of the history; the breaker is closed exactly while it is short. */
  lemma CountsTrailingFailures(threshold: int, recovery: int, turns: seq<Batch>)
    requires threshold >= 1 && Ordered(threshold, recovery, turns)
    ensures var l := Lived(threshold, recovery, turns);
            l.b.failureCount == Trailing(l.calls, Succeeded)
            && (l.b.state == Closed <==> Trailing(l.calls, Succeeded) < threshold)
  {
    LifeSound(threshold, recovery, turns);
  }

  /**
   A call is admitted exactly when the failures at the end of the history are fewer than the threshold, or the recovery
   timeout has passed since the last of them.
   */
  lemma AdmitsIff(threshold: int, recovery: int, turns: seq<Batch>, at: int)
    requires threshold >= 1 && Ordered(threshold, recovery, turns) && Lived(threshold, recovery, turns).clock <= at
    ensures var l := Lived(threshold, recovery, turns);
            var tripped := Trailing(l.calls, Succeeded) >= threshold;
            (tripped ==> l.calls != [])
            && (Admits(l.b, at) <==> tripped ==> at >= l.calls[|l.calls| - 1].end + recovery)
  {
    LifeSound(threshold, recovery, turns);
    hide Lived, Ordered;
  }

  /** An asking turn that comes to an outcome adds its call to the history exactly under that condition. */
  lemma AdmittedIff(threshold: int, recovery: int, turns: seq<Batch>, t: Batch)
    requires threshold >= 1 && Ordered(threshold, recovery, turns)
    requires t.asks && t.outcome.Some? && InTime(Lived(threshold, recovery, turns), t)
    ensures var calls := Lived(threshold, recovery, turns).calls;
            var tripped := Trailing(calls, Succeeded) >= threshold;
            (tripped ==> calls != [])
            && Lived(threshold, recovery, turns + [t]).calls
               == if tripped ==> t.at >= calls[|calls| - 1].end + recovery
                  then calls + [Call(t.at, t.outcome.value.1, t.outcome.value.0)] else calls
  {
    AdmitsIff(threshold, recovery, turns, t.at);
    LivedSnoc(threshold, recovery, turns, t);
    hide Lived, Ordered, Trailing, Admits;
  }

  /** One recorded outcome always leaves HalfOpen: success closes, failure opens. */
  lemma ProbeDecides(threshold: int, recovery: int, turns: seq<Batch>, t: Batch)
    requires threshold >= 1 && Ordered(threshold, recovery, turns)
    requires Lived(threshold, recovery, turns).b.state == HalfOpen && t.asks && t.outcome.Some?
    ensures Lived(threshold, recovery, turns + [t]).b.state == if t.outcome.value.0 then Closed else Open
  {
    LifeSound(threshold, recovery, turns);
    assert (turns + [t])[..|turns|] == turns;
  }

  /** Starts of consecutive failing calls, from the one that trips the breaker on. */
  lemma {:induction false} FailuresSpread(calls: seq<Call>, threshold: int, recovery: int, i: nat, j: nat)
    requires threshold >= 1 && recovery >= 0 && Spaced(calls, threshold, recovery) && Calm(calls)
    requires i < j <= |calls| && forall m :: i <= m < j ==> !calls[m].success
    ensures Trailing(calls[..j], Succeeded) >= j - i
    ensures calls[i].start <= calls[j - 1].start
    ensures (j - i - threshold) * recovery <= calls[j - 1].start - calls[i].start
    decreases j
  {
    assert calls[..j][..j - 1] == calls[..j - 1];
    if i < j - 1 {
      FailuresSpread(calls, threshold, recovery, i, j - 1);
      assert calls[j - 2].end <= calls[j - 1].start;
      if j - i > threshold { assert WaitsOut(calls, j - 2, threshold, recovery); }
      hide *;
    }
    Gaps(j - i, threshold, recovery);
  }

  lemma Gaps(n: nat, threshold: int, recovery: int)
    requires recovery >= 0
    ensures n <= threshold ==> (n - threshold) * recovery <= 0
    ensures (n - threshold) * recovery == (n - 1 - threshold) * recovery + recovery
  {
    var over := n - threshold;
    assert (over - 1) * recovery == over * recovery - recovery;
    if over <= 0 { Negative(over, recovery); }
  }

  /** Calls i to j - 1, if none succeeds, number at most the threshold plus one per recovery timeout elapsed. */
  lemma AttemptsBounded(threshold: int, recovery: int, turns: seq<Batch>, i: nat, j: nat)
    requires threshold >= 1 && recovery >= 0 && Ordered(threshold, recovery, turns)
    requires var calls := Lived(threshold, recovery, turns).calls;
             i < j <= |calls| && forall m :: i <= m < j ==> !calls[m].success
    ensures var calls := Lived(threshold, recovery, turns).calls;
            (j - i - threshold) * recovery <= calls[j - 1].start - calls[i].start
  {
    LifeSound(threshold, recovery, turns);
    FailuresSpread(Lived(threshold, recovery, turns).calls, threshold, recovery, i, j);
  }

  /** Closed exactly while the count is below the threshold. */
  predicate Tallies(b: Breaker) {
    b.state == Closed <==> b.failureCount < b.failureThreshold
  }

  /**
   Outside that discipline the summary breaks: a success recorded while Open zeroes the count and stays Open.
   The three operations keep it otherwise.
   */
  lemma TallyKeptIff(b: Breaker, now: int)
    requires b.failureThreshold >= 1 && b.failureCount >= 0 && Tallies(b)
    ensures Tallies(AfterSuccess(b)) <==> b.state != Open
    ensures Tallies(AfterFailure(b, now)) && Tallies(AfterAsk(b, now))
  {
  }

  /** Such a success: a breaker tripped by one failure, then a late success. */
  lemma LateSuccessMiscounts()
    ensures var b := AfterSuccess(AfterFailure(Fresh(1, 10), 5));
            b.state == Open && b.failureCount == 0 && !Tallies(b)
  {
  }

  // ----- The health ping -----

  function Passed(ok: bool): bool { ok }

  /** The ping loop over its ticks: the flag is set exactly when the last failures number the threshold or more. */
  method PingLoop(results: seq<bool>, failureThreshold: int) returns (unhealthy: bool)
    requires failureThreshold >= 1
    ensures unhealthy <==> Trailing(results, Passed) >= failureThreshold
    ensures unhealthy <==>
      |results| >= failureThreshold && forall i :: |results| - failureThreshold <= i < |results| ==> !results[i]
  {
    unhealthy := false;
    var consecutiveFailures := 0;
    for i := 0 to |results|
      invariant consecutiveFailures == Trailing(results[..i], Passed)
      invariant unhealthy <==> consecutiveFailures >= failureThreshold
    {
      assert results[..i + 1] == results[..i] + [results[i]];
      TrailingSnoc(results[..i], results[i], Passed);
      if results[i] {
        unhealthy := false;
        consecutiveFailures := 0;
        continue;
      }
      consecutiveFailures := consecutiveFailures + 1;
      if consecutiveFailures >= failureThreshold { unhealthy := true; }
    }
    TrailingIs(results, Passed);
    assert results[..|results|] == results;
  }
}
