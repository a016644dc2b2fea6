/**
 The dashboard's history: two ring buffers per series, proved against unbounded logs of everything added.
 Times are nanoseconds; 0 is the zero time that marks an unused slot.
 */
module RingHistory {
  import opened Arithmetic

  datatype DataPoint = DataPoint(timestamp: int, value: real)

  const UNUSED := DataPoint(0, 0.0)
  const SHORT := 300
  const LONG := 60
  const MINUTE := 60_000_000_000
  const SHORT_WINDOW := 300_000_000_000

  // ----- Rings -----

  /** Slot of the i-th newest point. */
  function Slot(n: nat, head: nat, i: nat): (k: nat)
    requires head < n && i < n
    ensures k < n
  {
    if i < head then head - 1 - i else head - 1 - i + n
  }

  lemma SlotIsModular(n: nat, head: nat, i: nat)
    requires head < n && i < n
    ensures (head - 1 - i + n) % n == Slot(n, head, i)
  {
    ModIs(head - 1 - i + n, n, if i < head then 1 else 0, Slot(n, head, i));
  }

  /** The ring holds the newest points of the log; slots never written hold the zero time. */
  ghost predicate RingOf(ring: seq<DataPoint>, head: nat, log: seq<DataPoint>) {
    var n := |ring|;
    && head < n
    && (if |log| < n then head == |log| else true)
    && forall i: nat :: i < n ==> ring[Slot(n, head, i)] == if i < |log| then log[|log| - 1 - i] else UNUSED
  }

  function Next(n: nat, head: nat): nat
    requires head < n
  {
    (head + 1) % n
  }

  lemma NextIs(n: nat, head: nat)
    requires head < n
    ensures Next(n, head) == if head + 1 == n then 0 else head + 1
  {
  }

  /** Writing at the head and advancing it appends to the log. */
  lemma RingAdd(ring: seq<DataPoint>, head: nat, log: seq<DataPoint>, p: DataPoint)
    requires RingOf(ring, head, log)
    ensures RingOf(ring[head := p], Next(|ring|, head), log + [p])
  {
    var n := |ring|;
    var head' := Next(n, head);
    NextIs(n, head);
    forall i: nat | i < n
      ensures ring[head := p][Slot(n, head', i)] == if i < |log| + 1 then (log + [p])[|log| - i] else UNUSED
    {
      if i == 0 {
        assert Slot(n, head', 0) == head;
      } else {
        assert Slot(n, head', i) == Slot(n, head, i - 1);
        assert ring[Slot(n, head, i - 1)] == if i - 1 < |log| then log[|log| - 1 - (i - 1)] else UNUSED;
      }
    }
  }

  // ----- Reading back -----

  /** Newest first, at most n points, up to the first one before the cutoff. */
  function Back(log: seq<DataPoint>, n: nat, cutoff: int): seq<DataPoint> {
    if log == [] || n == 0 || log[|log| - 1].timestamp < cutoff then []
    else [log[|log| - 1]] + Back(log[..|log| - 1], n - 1, cutoff)
  }

  ghost predicate Stamped(log: seq<DataPoint>) {
    forall i :: 0 <= i < |log| ==> log[i].timestamp != 0
  }

  method ReadRingBackward(ring: array<DataPoint>, head: nat, cutoff: int, ghost log: seq<DataPoint>)
    returns (result: seq<DataPoint>)
    requires RingOf(ring[..], head, log) && Stamped(log)
    ensures result == Back(log, ring.Length, cutoff)
  {
    hide *;
    var n := ring.Length;
    result := [];
    assert log[..|log| - 0] == log;
    HeadInRing(ring[..], head, log);
    BackEmpty(cutoff);
    for i := 0 to n
      invariant head < n
      invariant i <= |log| ==> result + Back(log[..|log| - i], n - i, cutoff) == Back(log, n, cutoff)
      invariant i > |log| ==> result == Back(log, n, cutoff)
    {
      SlotIsModular(n, head, i);
      var idx := (head - 1 - i + n) % n;
      RingAt(ring[..], head, log, i);
      var p := ring[idx];
      assert p == ring[..][Slot(n, head, i)];
      if i < |log| { BackOnce(log, n, i, cutoff); }
      if p.timestamp == 0 { StampedAt(log, i); continue; }
      if p.timestamp < cutoff { break; }
      result := result + [p];
    }
  }

  lemma HeadInRing(ring: seq<DataPoint>, head: nat, log: seq<DataPoint>)
    requires RingOf(ring, head, log)
    ensures head < |ring|
  {
  }

  lemma RingAt(ring: seq<DataPoint>, head: nat, log: seq<DataPoint>, i: nat)
    requires RingOf(ring, head, log) && head < |ring| && i < |ring|
    ensures ring[Slot(|ring|, head, i)] == if i < |log| then log[|log| - 1 - i] else UNUSED
    ensures UNUSED.timestamp == 0
  {
  }

  lemma StampedAt(log: seq<DataPoint>, i: nat)
    requires Stamped(log)
    ensures i < |log| ==> log[|log| - 1 - i].timestamp != 0
  {
  }

  lemma BackEmpty(cutoff: int)
    ensures forall log, n: nat :: log == [] || n == 0 ==> Back(log, n, cutoff) == []
  {
  }

  lemma BackOnce(log: seq<DataPoint>, n: nat, i: nat, cutoff: int)
    requires i < |log| && i < n
    ensures var p, rest := log[|log| - 1 - i], Back(log[..|log| - (i + 1)], n - (i + 1), cutoff);
            Back(log[..|log| - i], n - i, cutoff) == if p.timestamp < cutoff then [] else [p] + rest
  {
    assert log[..|log| - i][..|log| - i - 1] == log[..|log| - (i + 1)];
  }

  /** The newest n points of the log. */
  function Latest(log: seq<DataPoint>, n: nat): seq<DataPoint> {
    if |log| <= n then log else log[|log| - n..]
  }

  function Since(s: seq<DataPoint>, cutoff: int): seq<DataPoint> {
    if s == [] then [] else Since(s[..|s| - 1], cutoff) + (if s[|s| - 1].timestamp >= cutoff then [s[|s| - 1]] else [])
  }

  function Reverse(s: seq<DataPoint>): seq<DataPoint> {
    if s == [] then [] else [s[|s| - 1]] + Reverse(s[..|s| - 1])
  }

  ghost predicate Chronological(s: seq<DataPoint>) {
    forall i, j :: 0 <= i < j < |s| ==> s[i].timestamp <= s[j].timestamp
  }

  ghost predicate NewestFirst(s: seq<DataPoint>) {
    forall i, j :: 0 <= i < j < |s| ==> s[i].timestamp >= s[j].timestamp
  }

  lemma {:induction false} NoneSince(s: seq<DataPoint>, cutoff: int)
    requires forall i :: 0 <= i < |s| ==> s[i].timestamp < cutoff
    ensures Since(s, cutoff) == []
  {
    if s != [] { NoneSince(s[..|s| - 1], cutoff); }
  }

  lemma {:induction false} ReverseSnoc(s: seq<DataPoint>, p: DataPoint)
    ensures Reverse(s + [p]) == [p] + Reverse(s)
  {
    assert (s + [p])[..|s|] == s;
  }

  /** For stamps that never go back, reading back is the reverse of the latest n points not before the cutoff. */
  lemma {:induction false} BackIsWindow(log: seq<DataPoint>, n: nat, cutoff: int)
    requires Chronological(log)
    ensures Back(log, n, cutoff) == Reverse(Since(Latest(log, n), cutoff))
  {
    if log == [] || n == 0 {
      assert Latest(log, n) == [];
    } else if log[|log| - 1].timestamp < cutoff {
      NothingRecent(log, n, cutoff);
    } else {
      BackIsWindow(log[..|log| - 1], n - 1, cutoff);
      BackIsWindowStep(log, n, cutoff);
    }
  }

  lemma BackIsWindowStep(log: seq<DataPoint>, n: nat, cutoff: int)
    requires log != [] && n > 0 && log[|log| - 1].timestamp >= cutoff
    requires var less := log[..|log| - 1]; Back(less, n - 1, cutoff) == Reverse(Since(Latest(less, n - 1), cutoff))
    ensures Back(log, n, cutoff) == Reverse(Since(Latest(log, n), cutoff))
  {
    LatestSnoc(log, n);
    hide Latest, Since, Reverse;
    WindowSnoc(Latest(log[..|log| - 1], n - 1), log[|log| - 1], cutoff);
  }

  lemma NothingRecent(log: seq<DataPoint>, n: nat, cutoff: int)
    requires Chronological(log) && log != [] && log[|log| - 1].timestamp < cutoff
    ensures Back(log, n, cutoff) == [] && Since(Latest(log, n), cutoff) == []
  {
    LastIsGreatest(log, n);
    NoneSince(Latest(log, n), cutoff);
  }

  lemma LatestSnoc(log: seq<DataPoint>, n: nat)
    requires log != [] && n > 0
    ensures Latest(log, n) == Latest(log[..|log| - 1], n - 1) + [log[|log| - 1]]
  {
  }

  lemma LastIsGreatest(log: seq<DataPoint>, n: nat)
    requires Chronological(log) && log != []
    ensures forall i :: 0 <= i < |Latest(log, n)| ==> Latest(log, n)[i].timestamp <= log[|log| - 1].timestamp
  {
  }

  lemma WindowSnoc(s: seq<DataPoint>, p: DataPoint, cutoff: int)
    requires p.timestamp >= cutoff
    ensures Reverse(Since(s + [p], cutoff)) == [p] + Reverse(Since(s, cutoff))
  {
    assert (s + [p])[..|s|] == s;
    ReverseSnoc(Since(s, cutoff), p);
  }

  lemma {:induction false} BackBounds(log: seq<DataPoint>, n: nat, cutoff: int)
    requires Chronological(log)
    ensures NewestFirst(Back(log, n, cutoff))
    ensures forall p :: p in Back(log, n, cutoff) ==> p in log && p.timestamp >= cutoff
  {
    if log != [] && n > 0 && log[|log| - 1].timestamp >= cutoff {
      BackBounds(log[..|log| - 1], n - 1, cutoff);
      var rest := Back(log[..|log| - 1], n - 1, cutoff);
      forall j | 0 <= j < |rest|
        ensures rest[j].timestamp <= log[|log| - 1].timestamp
      {
        assert rest[j] in rest;
      }
    }
  }

  // ----- Merging the two rings -----

  function Before(s: seq<DataPoint>, limit: int): seq<DataPoint> {
    if s == [] then [] else Before(s[..|s| - 1], limit) + (if s[|s| - 1].timestamp < limit then [s[|s| - 1]] else [])
  }

  lemma {:induction false} BeforeKeeps(s: seq<DataPoint>, limit: int)
    requires NewestFirst(s)
    ensures NewestFirst(Before(s, limit))
    ensures forall p :: p in Before(s, limit) <==> p in s && p.timestamp < limit
  {
    if s != [] {
      var n := |s| - 1;
      BeforeKeeps(s[..n], limit);
      assert s == s[..n] + [s[n]];
      var rest := Before(s[..n], limit);
      forall i | 0 <= i < |rest|
        ensures rest[i].timestamp >= s[n].timestamp
      {
        assert rest[i] in s[..n];
      }
    }
  }

  function Merged(shortLog: seq<DataPoint>, longLog: seq<DataPoint>, cutoff: int, limit: int): seq<DataPoint> {
    Back(shortLog, SHORT, cutoff) + Before(Back(longLog, LONG, cutoff), limit)
  }

  /** The ring's points from the cutoff on are what reading back returns. */
  lemma BackMembers(log: seq<DataPoint>, n: nat, cutoff: int, p: DataPoint)
    requires Chronological(log)
    ensures p in Back(log, n, cutoff) <==> p in Latest(log, n) && p.timestamp >= cutoff
  {
    BackIsWindow(log, n, cutoff);
    hide *;
    SinceMembers(Latest(log, n), cutoff, p);
    ReverseMembers(Since(Latest(log, n), cutoff), p);
  }

  lemma {:induction false} SinceMembers(s: seq<DataPoint>, cutoff: int, p: DataPoint)
    ensures p in Since(s, cutoff) <==> p in s && p.timestamp >= cutoff
  {
    if s != [] {
      SinceMembers(s[..|s| - 1], cutoff, p);
      assert s == s[..|s| - 1] + [s[|s| - 1]];
    }
  }

  lemma {:induction false} ReverseMembers(s: seq<DataPoint>, p: DataPoint)
    ensures p in Reverse(s) <==> p in s
  {
    if s != [] {
      ReverseMembers(s[..|s| - 1], p);
      assert s == s[..|s| - 1] + [s[|s| - 1]];
    }
  }

  /** A short-term point older than a long-term one that is itself older than the limit. */
  ghost predicate Overtaken(shortLog: seq<DataPoint>, longLog: seq<DataPoint>, p: DataPoint, q: DataPoint, limit: int) {
    p in Latest(shortLog, SHORT) && q in Latest(longLog, LONG) && p.timestamp < q.timestamp < limit
  }

  /**
   The merged history is newest-first exactly when the rings hold no short-term point, from the cutoff on, that is
   older than a long-term point older than five minutes.
   */
  lemma MergedNewestFirstIff(shortLog: seq<DataPoint>, longLog: seq<DataPoint>, cutoff: int, limit: int)
    requires Chronological(shortLog) && Chronological(longLog)
    ensures NewestFirst(Merged(shortLog, longLog, cutoff, limit))
            <==> !exists p, q :: Overtaken(shortLog, longLog, p, q, limit) && p.timestamp >= cutoff
  {
    var s, l := Back(shortLog, SHORT, cutoff), Back(longLog, LONG, cutoff);
    BackBounds(shortLog, SHORT, cutoff);
    BackBounds(longLog, LONG, cutoff);
    BeforeKeeps(l, limit);
    JoinNewestFirst(s, Before(l, limit));
    forall p, q
      ensures (p in s && q in l && q.timestamp < limit && p.timestamp < q.timestamp)
              <==> Overtaken(shortLog, longLog, p, q, limit) && p.timestamp >= cutoff
    {
      BackMembers(shortLog, SHORT, cutoff, p);
      BackMembers(longLog, LONG, cutoff, q);
    }
    hide Back, Before, Latest, NewestFirst;
    if !NewestFirst(Merged(shortLog, longLog, cutoff, limit)) {
      var p, q :| p in s && q in Before(l, limit) && p.timestamp < q.timestamp;
      assert Overtaken(shortLog, longLog, p, q, limit);
    }
  }

  /** It is so for every duration over five minutes exactly when the rings hold no such pair at all. */
  lemma AlwaysNewestFirstIff(shortLog: seq<DataPoint>, longLog: seq<DataPoint>, limit: int)
    requires Chronological(shortLog) && Chronological(longLog)
    ensures (forall cutoff :: cutoff < limit ==> NewestFirst(Merged(shortLog, longLog, cutoff, limit)))
            <==> !exists p, q :: Overtaken(shortLog, longLog, p, q, limit)
  {
    hide Merged, NewestFirst;
    forall cutoff: int
      ensures NewestFirst(Merged(shortLog, longLog, cutoff, limit))
              <==> !exists p, q :: Overtaken(shortLog, longLog, p, q, limit) && p.timestamp >= cutoff
    {
      MergedNewestFirstIff(shortLog, longLog, cutoff, limit);
    }
    if p, q :| Overtaken(shortLog, longLog, p, q, limit) {
      assert p.timestamp < limit;
      assert !NewestFirst(Merged(shortLog, longLog, p.timestamp, limit));
    }
  }

  /** The merged history holds the short ring's points from the cutoff on and the long ring's before the limit. */
  lemma MergedMembers(shortLog: seq<DataPoint>, longLog: seq<DataPoint>, cutoff: int, limit: int, p: DataPoint)
    requires Chronological(shortLog) && Chronological(longLog)
    ensures p in Merged(shortLog, longLog, cutoff, limit)
            <==> (p in Latest(shortLog, SHORT) && p.timestamp >= cutoff)
                 || (p in Latest(longLog, LONG) && cutoff <= p.timestamp < limit)
  {
    BackMembers(shortLog, SHORT, cutoff, p);
    BackMembers(longLog, LONG, cutoff, p);
    BackBounds(longLog, LONG, cutoff);
    BeforeKeeps(Back(longLog, LONG, cutoff), limit);
    hide Back, Before, Latest;
  }

  lemma {:induction false} SinceCount(s: seq<DataPoint>, cutoff: int, p: DataPoint)
    ensures multiset(Since(s, cutoff))[p] == if p.timestamp >= cutoff then multiset(s)[p] else 0
  {
    if s != [] {
      SinceCount(s[..|s| - 1], cutoff, p);
      assert s == s[..|s| - 1] + [s[|s| - 1]];
    }
  }

  lemma {:induction false} ReverseCount(s: seq<DataPoint>, p: DataPoint)
    ensures multiset(Reverse(s))[p] == multiset(s)[p]
  {
    if s != [] {
      ReverseCount(s[..|s| - 1], p);
      assert s == s[..|s| - 1] + [s[|s| - 1]];
    }
  }

  lemma {:induction false} BeforeCount(s: seq<DataPoint>, limit: int, p: DataPoint)
    ensures multiset(Before(s, limit))[p] == if p.timestamp < limit then multiset(s)[p] else 0
  {
    if s != [] {
      BeforeCount(s[..|s| - 1], limit, p);
      assert s == s[..|s| - 1] + [s[|s| - 1]];
    }
  }

  /** Reading back returns each point as often as the ring holds it. */
  lemma BackCount(log: seq<DataPoint>, n: nat, cutoff: int, p: DataPoint)
    requires Chronological(log)
    ensures multiset(Back(log, n, cutoff))[p] == if p.timestamp >= cutoff then multiset(Latest(log, n))[p] else 0
  {
    BackIsWindow(log, n, cutoff);
    hide *;
    SinceCount(Latest(log, n), cutoff, p);
    ReverseCount(Since(Latest(log, n), cutoff), p);
  }

  /** The merged history returns each point as often as the rings hold it within their parts of the history. */
  lemma MergedCount(shortLog: seq<DataPoint>, longLog: seq<DataPoint>, cutoff: int, limit: int, p: DataPoint)
    requires Chronological(shortLog) && Chronological(longLog)
    ensures multiset(Merged(shortLog, longLog, cutoff, limit))[p]
            == (if cutoff <= p.timestamp then multiset(Latest(shortLog, SHORT))[p] else 0)
               + (if cutoff <= p.timestamp < limit then multiset(Latest(longLog, LONG))[p] else 0)
  {
    BackCount(shortLog, SHORT, cutoff, p);
    BackCount(longLog, LONG, cutoff, p);
    BeforeCount(Back(longLog, LONG, cutoff), limit, p);
    hide Back, Before, Latest;
  }

  /** The newest n points of a log, or all of them, are its end. */
  lemma LatestIs(log: seq<DataPoint>, n: nat)
    ensures var late := Latest(log, n);
            |late| == (if |log| < n then |log| else n) && log == log[..|log| - |late|] + late
  {
  }

  /** Nothing is returned from the limit up to the given time. */
  ghost predicate Hole(result: seq<DataPoint>, limit: int, time: int) {
    forall r :: r in result ==> !(limit <= r.timestamp <= time)
  }

  /**
   A long-term point q inside the five minutes is left out. The history then has a hole up to q exactly when the short
   ring holds nothing between the limit and q, so whenever all it holds is newer than q; and when the short ring
   reaches back past the limit, every point ever added since is returned.
   */
  lemma HoleIff(shortLog: seq<DataPoint>, longLog: seq<DataPoint>, cutoff: int, limit: int, q: DataPoint)
    requires Chronological(shortLog) && Chronological(longLog) && cutoff <= limit
    requires q in Latest(longLog, LONG) && limit <= q.timestamp
    ensures var result := Merged(shortLog, longLog, cutoff, limit);
            (Hole(result, limit, q.timestamp)
             <==> !exists p :: p in Latest(shortLog, SHORT) && limit <= p.timestamp <= q.timestamp)
            && ((forall p :: p in Latest(shortLog, SHORT) ==> p.timestamp > q.timestamp) ==>
                  Hole(result, limit, q.timestamp))
            && ((exists p :: p in Latest(shortLog, SHORT) && p.timestamp < limit) ==>
                  forall r :: r in shortLog && r.timestamp >= limit ==> r in result)
  {
    forall p
      ensures p in Merged(shortLog, longLog, cutoff, limit)
              <==> (p in Latest(shortLog, SHORT) && p.timestamp >= cutoff)
                   || (p in Latest(longLog, LONG) && cutoff <= p.timestamp < limit)
    {
      MergedMembers(shortLog, longLog, cutoff, limit, p);
    }
    hide Merged;
    if p :| p in Latest(shortLog, SHORT) && p.timestamp < limit {
      forall r | r in shortLog && r.timestamp >= limit
        ensures r in Latest(shortLog, SHORT)
      {
        NewerIsKept(shortLog, SHORT, p, r);
      }
    }
  }

  /** What was added after a point the ring still holds is still held. */
  lemma NewerIsKept(log: seq<DataPoint>, n: nat, p: DataPoint, r: DataPoint)
    requires Chronological(log) && p in Latest(log, n) && r in log && p.timestamp < r.timestamp
    ensures r in Latest(log, n)
  {
    hide Latest;
    var j := KeptFrom(log, n, p);
    var i :| 0 <= i < |log| && log[i] == r;
    if i > j { KeptAt(log, n, i); }
  }

  lemma KeptFrom(log: seq<DataPoint>, n: nat, p: DataPoint) returns (j: nat)
    requires p in Latest(log, n)
    ensures |log| - n <= j < |log| && log[j] == p
  {
    var late := Latest(log, n);
    var i :| 0 <= i < |late| && late[i] == p;
    j := i + |log| - |late|;
  }

  lemma KeptAt(log: seq<DataPoint>, n: nat, i: nat)
    requires |log| - n <= i < |log|
    ensures log[i] in Latest(log, n)
  {
    var late := Latest(log, n);
    assert late[i - (|log| - |late|)] == log[i];
  }

  lemma JoinNewestFirst(s: seq<DataPoint>, k: seq<DataPoint>)
    requires NewestFirst(s) && NewestFirst(k)
    ensures NewestFirst(s + k) <==> forall p, q :: p in s && q in k ==> p.timestamp >= q.timestamp
  {
    if NewestFirst(s + k) {
      forall p, q | p in s && q in k
        ensures p.timestamp >= q.timestamp
      {
        var i :| 0 <= i < |s| && s[i] == p;
        var j :| 0 <= j < |k| && k[j] == q;
        assert (s + k)[i] == p && (s + k)[|s| + j] == q;
      }
    } else {
      var i, j :| 0 <= i < j < |s + k| && (s + k)[i].timestamp < (s + k)[j].timestamp;
      assert i < |s| <= j;
      assert s[i] in s && k[j - |s|] in k;
    }
  }

  // ----- Downsampling -----

  predicate Recent(p: DataPoint, cutoff: int) { p.timestamp != 0 && p.timestamp > cutoff }

  function Sum(s: seq<DataPoint>, cutoff: int): real {
    if s == [] then 0.0 else Sum(s[..|s| - 1], cutoff) + (if Recent(s[|s| - 1], cutoff) then s[|s| - 1].value else 0.0)
  }

  function Tally(s: seq<DataPoint>, cutoff: int): nat {
    if s == [] then 0 else Tally(s[..|s| - 1], cutoff) + (if Recent(s[|s| - 1], cutoff) then 1 else 0)
  }

  lemma {:induction false} SumAppend(a: seq<DataPoint>, b: seq<DataPoint>, cutoff: int)
    ensures Sum(a + b, cutoff) == Sum(a, cutoff) + Sum(b, cutoff)
    ensures Tally(a + b, cutoff) == Tally(a, cutoff) + Tally(b, cutoff)
  {
    if b == [] {
      assert a + b == a;
    } else {
      var n := |b| - 1;
      assert (a + b)[..|a + b| - 1] == a + b[..n];
      SumAppend(a, b[..n], cutoff);
    }
  }

  lemma {:induction false} UnusedSum(s: seq<DataPoint>, cutoff: int)
    requires forall i :: 0 <= i < |s| ==> s[i] == UNUSED
    ensures Sum(s, cutoff) == 0.0 && Tally(s, cutoff) == 0
  {
    if s != [] { UnusedSum(s[..|s| - 1], cutoff); }
  }

  function Total(s: seq<DataPoint>): real {
    if s == [] then 0.0 else Total(s[..|s| - 1]) + s[|s| - 1].value
  }

  function Pick(s: seq<DataPoint>, at: seq<nat>): seq<DataPoint>
    requires forall k :: 0 <= k < |at| ==> at[k] < |s|
  {
    seq(|at|, k requires 0 <= k < |at| => s[at[k]])
  }

  /** The indices of the used points after the cutoff, in order. */
  ghost predicate Picks(s: seq<DataPoint>, cutoff: int, at: seq<nat>) {
    && (forall k :: 0 <= k < |at| ==> at[k] < |s|)
    && (forall j, k :: 0 <= j < k < |at| ==> at[j] < at[k])
    && (forall i: nat :: i in at <==> i < |s| && s[i].timestamp != 0 && s[i].timestamp > cutoff)
  }

  /** The sum and the number behind the mean are those of exactly the used points after the cutoff, each once. */
  lemma {:induction false} MeanOf(s: seq<DataPoint>, cutoff: int) returns (at: seq<nat>)
    ensures Picks(s, cutoff, at)
    ensures Tally(s, cutoff) == |at| && Sum(s, cutoff) == Total(Pick(s, at))
  {
    if s == [] {
      at := [];
    } else {
      var n := |s| - 1;
      var before := MeanOf(s[..n], cutoff);
      PicksMore(s, cutoff, before);
      PickMore(s, before, n);
      at := if Recent(s[n], cutoff) then before + [n] else before;
      hide Pick, Total, Picks;
    }
  }

  lemma PicksMore(s: seq<DataPoint>, cutoff: int, before: seq<nat>)
    requires s != [] && Picks(s[..|s| - 1], cutoff, before)
    ensures Picks(s, cutoff, if Recent(s[|s| - 1], cutoff) then before + [|s| - 1] else before)
    ensures forall k :: 0 <= k < |before| ==> before[k] < |s| - 1
  {
    var n := |s| - 1;
    forall i: nat | i < n
      ensures i in before <==> s[i].timestamp != 0 && s[i].timestamp > cutoff
    {
      assert s[..n][i] == s[i];
    }
  }

  lemma PickMore(s: seq<DataPoint>, at: seq<nat>, n: nat)
    requires n < |s| && forall k :: 0 <= k < |at| ==> at[k] < n
    ensures Pick(s, at) == Pick(s[..n], at)
    ensures Total(Pick(s, at + [n])) == Total(Pick(s, at)) + s[n].value
  {
    assert Pick(s, at + [n]) == Pick(s, at) + [s[n]];
    assert (Pick(s, at) + [s[n]])[..|at|] == Pick(s, at);
  }

  /** The ring is its log's latest points, rotated; unused slots follow a log shorter than the ring. */
  lemma RingRotation(ring: seq<DataPoint>, head: nat, log: seq<DataPoint>)
    requires RingOf(ring, head, log)
    ensures |log| >= |ring| ==> Latest(log, |ring|) == ring[head..] + ring[..head]
    ensures |log| < |ring| ==> ring[..head] == log && forall i :: head <= i < |ring| ==> ring[i] == UNUSED
  {
    var n := |ring|;
    forall k | 0 <= k < n
      ensures ring[k] == (var i := if k < head then head - 1 - k else head - 1 - k + n;
                          if i < |log| then log[|log| - 1 - i] else UNUSED)
    {
      var i := if k < head then head - 1 - k else head - 1 - k + n;
      assert Slot(n, head, i) == k;
    }
  }

  /** Sums over the ring in slot order are sums over the latest points of the log. */
  lemma RingSum(ring: seq<DataPoint>, head: nat, log: seq<DataPoint>, cutoff: int)
    requires RingOf(ring, head, log)
    ensures Sum(ring, cutoff) == Sum(Latest(log, |ring|), cutoff)
    ensures Tally(ring, cutoff) == Tally(Latest(log, |ring|), cutoff)
  {
    RingRotation(ring, head, log);
    assert ring == ring[..head] + ring[head..];
    SumAppend(ring[..head], ring[head..], cutoff);
    if |log| >= |ring| { SumAppend(ring[head..], ring[..head], cutoff); }
    else { UnusedSum(ring[head..], cutoff); }
  }

  lemma {:induction false} SumWithin(s: seq<DataPoint>, cutoff: int, lo: real, hi: real)
    requires forall i :: 0 <= i < |s| && Recent(s[i], cutoff) ==> lo <= s[i].value <= hi
    ensures Tally(s, cutoff) as real * lo <= Sum(s, cutoff) <= Tally(s, cutoff) as real * hi
  {
    if s != [] {
      var n := |s| - 1;
      SumWithin(s[..n], cutoff, lo, hi);
      var t, sum := Tally(s[..n], cutoff), Sum(s[..n], cutoff);
      if Recent(s[n], cutoff) {
        var v := s[n].value;
        assert lo <= v <= hi && Tally(s, cutoff) == t + 1 && Sum(s, cutoff) == sum + v;
        hide *;
        OneMore(t, lo);
        OneMore(t, hi);
      }
    }
  }

  lemma OneMore(t: nat, x: real)
    ensures (t + 1) as real * x == t as real * x + x
  {
    assert (t + 1) as real == t as real + 1.0;
  }

  /** A mean lies between any bounds of the values it is taken over. */
  lemma MeanWithin(s: seq<DataPoint>, cutoff: int, lo: real, hi: real)
    requires forall i :: 0 <= i < |s| && Recent(s[i], cutoff) ==> lo <= s[i].value <= hi
    requires Tally(s, cutoff) > 0
    ensures lo <= Sum(s, cutoff) / Tally(s, cutoff) as real <= hi
  {
    SumWithin(s, cutoff, lo, hi);
    Quotient(Sum(s, cutoff), Tally(s, cutoff) as real, lo, hi);
  }

  lemma Quotient(sum: real, t: real, lo: real, hi: real)
    requires t > 0.0 && t * lo <= sum <= t * hi
    ensures lo <= sum / t <= hi
  {
    var q := sum / t;
    assert q * t == sum;
    if q < lo { ProductsStrict(t, q, lo); }
    if q > hi { ProductsStrict(t, hi, q); }
  }

  // ----- The object -----

  class TimeSeries {
    const short: array<DataPoint>
    var shortHead: nat
    const long: array<DataPoint>
    var longHead: nat
    ghost var shortLog: seq<DataPoint>   // every point added
    ghost var longLog: seq<DataPoint>    // every point downsampled

    ghost predicate Valid()
      reads this, short, long
    {
      && short.Length == SHORT && long.Length == LONG && short != long
      && RingOf(short[..], shortHead, shortLog) && RingOf(long[..], longHead, longLog)
      && Stamped(shortLog) && Stamped(longLog)
    }

    constructor ()
      ensures Valid() && shortLog == [] && longLog == [] && fresh(short) && fresh(long)
      ensures short.Length == 300 && long.Length == 60
    {
      short := new DataPoint[SHORT](_ => UNUSED);
      long := new DataPoint[LONG](_ => UNUSED);
      shortHead, longHead := 0, 0;
      shortLog, longLog := [], [];
    }

    method Add(p: DataPoint)
      requires Valid() && p.timestamp != 0
      modifies this`shortHead, this`shortLog, short
      ensures Valid() && shortLog == old(shortLog) + [p]
    {
      RingAdd(short[..], shortHead, shortLog, p);
      ghost var expected := short[..][shortHead := p];
      short[shortHead] := p;
      assert short[..] == expected;
      assert long[..] == old(long[..]);
      shortHead := (shortHead + 1) % short.Length;
      shortLog := shortLog + [p];
    }

    /** `now` and `later` are the two clock readings of the source. */
    method GetHistory(duration: int, now: int, later: int) returns (result: seq<DataPoint>)
      requires Valid()
      ensures duration <= 300_000_000_000 ==> result == Back(shortLog, 300, now - duration)
      ensures duration > 300_000_000_000 ==>
        result == Merged(shortLog, longLog, now - duration, later - 300_000_000_000)
    {
      var cutoff := now - duration;
      if duration <= SHORT_WINDOW {
        result := ReadRingBackward(short, shortHead, cutoff, shortLog);
        return;
      }
      var shortPoints := ReadRingBackward(short, shortHead, cutoff, shortLog);
      var longPoints := ReadRingBackward(long, longHead, cutoff, longLog);
      var shortCutoff := later - SHORT_WINDOW;
      result := shortPoints;
      LongStamped(cutoff);
      for i := 0 to |longPoints|
        invariant result == shortPoints + Before(longPoints[..i], shortCutoff)
      {
        var p := longPoints[i];
        assert longPoints[..i + 1][..i] == longPoints[..i];
        assert p in longPoints;
        if p.timestamp != 0 && p.timestamp < shortCutoff { result := result + [p]; }
      }
      assert longPoints[..|longPoints|] == longPoints;
    }

    lemma LongStamped(cutoff: int)
      requires Valid()
      ensures forall p :: p in Back(longLog, LONG, cutoff) ==> p.timestamp != 0
    {
      BackStamped(longLog, LONG, cutoff);
    }

    /** One series' share of downsampleAll: the mean of the points of the past minute becomes one long-term point. */
    method Downsample(now: int, later: int)
      requires Valid() && later != 0
      modifies this`longHead, this`longLog, long
      ensures Valid()
      ensures var window, cutoff := Latest(shortLog, SHORT), now - 60_000_000_000;
              longLog == if Tally(window, cutoff) == 0 then old(longLog)
                         else old(longLog) + [DataPoint(later, Sum(window, cutoff) / Tally(window, cutoff) as real)]
    {
      var sum, count := Minute(now - MINUTE);
      hide Sum, Tally, Latest, RingOf;
      if count > 0 {
        var p := DataPoint(later, sum / count as real);
        RingAdd(long[..], longHead, longLog, p);
        ghost var expected := long[..][longHead := p];
        long[longHead] := p;
        assert long[..] == expected;
        assert short[..] == old(short[..]);
        longHead := (longHead + 1) % long.Length;
        longLog := longLog + [p];
      }
    }

    /** Sum and number of the short ring's points after the cutoff, in slot order. */
    method Minute(cutoff: int) returns (sum: real, count: int)
      requires Valid()
      ensures sum == Sum(Latest(shortLog, SHORT), cutoff) && count == Tally(Latest(shortLog, SHORT), cutoff)
    {
      sum, count := 0.0, 0;
      for i := 0 to short.Length
        invariant sum == Sum(short[..i], cutoff) && count == Tally(short[..i], cutoff)
      {
        var p := short[i];
        assert short[..i + 1][..i] == short[..i];
        if p.timestamp != 0 && p.timestamp > cutoff {
          sum := sum + p.value;
          count := count + 1;
        }
      }
      assert short[..short.Length] == short[..];
      RingSum(short[..], shortHead, shortLog, cutoff);
    }
  }

  const SECOND := 1_000_000_000

  /** Points a step apart, as from a collection interval of one step, and a downsampling every minute. */
  method Collect(ts: TimeSeries, step: nat, perMinute: nat, minutes: nat)
    requires ts.Valid() && ts.shortLog == [] && ts.longLog == [] && step > 0 && perMinute * step == MINUTE
    modifies ts, ts.short, ts.long
    ensures ts.Valid() && Every(ts.shortLog, step, minutes * perMinute) && Every(ts.longLog, MINUTE, minutes)
  {
    for m := 0 to minutes
      invariant ts.Valid() && Every(ts.shortLog, step, m * perMinute) && Every(ts.longLog, MINUTE, m)
    {
      ghost var before := m * perMinute;
      assert (m + 1) * perMinute == before + perMinute;
      for n := 0 to perMinute
        invariant ts.Valid() && Every(ts.shortLog, step, before + n) && Every(ts.longLog, MINUTE, m)
      {
        var at := (m * perMinute + n + 1) * step;
        assert at > 0 by { ProductsInt(1, m * perMinute + n + 1, step); }
        ts.Add(DataPoint(at, 0.0));
      }
      var now := (m + 1) * MINUTE;
      assert (m + 1) * perMinute * step == now by { MinuteSteps(m + 1, perMinute, step); }
      LastIsRecent(Latest(ts.shortLog, SHORT), now - MINUTE);
      ts.Downsample(now, now);
    }
  }

  lemma MinuteSteps(m: nat, perMinute: nat, step: nat)
    requires perMinute * step == MINUTE
    ensures m * perMinute * step == m * MINUTE
  {
  }

  /** n points, the i-th of them i steps after the start. */
  ghost predicate Every(log: seq<DataPoint>, step: nat, n: nat) {
    |log| == n && forall i :: 0 <= i < n ==> log[i].timestamp == (i + 1) * step
  }

  /**
   With a point every two seconds the short ring reaches back past five minutes, and the history of ten minutes is out
   of order.
   */
  method SlowCollection() returns (result: seq<DataPoint>)
    ensures !NewestFirst(result)
  {
    var ts := new TimeSeries();
    Collect(ts, 2 * SECOND, 30, 10);
    var now := 10 * MINUTE;
    result := ts.GetHistory(10 * MINUTE, now, now);
    TenMinutes(ts.shortLog, ts.longLog);
  }

  /**
   With a point every 100 milliseconds the short ring spans half a minute, and the history of ten minutes has nothing
   between that and five minutes, though the long ring holds a point for each of those minutes.
   */
  method FastCollection() returns (result: seq<DataPoint>, ts: TimeSeries)
    ensures Every(ts.shortLog, SECOND / 10, 6000) && Every(ts.longLog, MINUTE, 10)
    ensures forall p :: p in result ==> p.timestamp < 5 * MINUTE || p.timestamp > 10 * MINUTE - 30 * SECOND
    ensures exists p :: p in result && p.timestamp < 5 * MINUTE
    ensures exists p :: p in result && p.timestamp == 10 * MINUTE
  {
    ts := new TimeSeries();
    Collect(ts, SECOND / 10, 600, 10);
    var now := 10 * MINUTE;
    result := ts.GetHistory(10 * MINUTE, now, now);
    HalfMinute(ts.shortLog, ts.longLog);
  }

  lemma LastIsRecent(s: seq<DataPoint>, cutoff: int)
    ensures s != [] && Recent(s[|s| - 1], cutoff) ==> Tally(s, cutoff) > 0
  {
  }

  lemma TenMinutes(shortLog: seq<DataPoint>, longLog: seq<DataPoint>)
    requires Every(shortLog, 2 * SECOND, 300) && Every(longLog, MINUTE, 10)
    ensures !NewestFirst(Merged(shortLog, longLog, 0, 10 * MINUTE - SHORT_WINDOW))
  {
    MergedNewestFirstIff(shortLog, longLog, 0, 10 * MINUTE - SHORT_WINDOW);
    hide Merged, NewestFirst;
    assert shortLog[0] in shortLog && longLog[1] in longLog;
    assert Overtaken(shortLog, longLog, shortLog[0], longLog[1], 10 * MINUTE - SHORT_WINDOW);
  }

  lemma HalfMinute(shortLog: seq<DataPoint>, longLog: seq<DataPoint>)
    requires Every(shortLog, SECOND / 10, 6000) && Every(longLog, MINUTE, 10)
    ensures var result := Merged(shortLog, longLog, 0, 10 * MINUTE - SHORT_WINDOW);
            (forall p :: p in result ==> p.timestamp < 5 * MINUTE || p.timestamp > 10 * MINUTE - 30 * SECOND)
            && longLog[0] in result && longLog[0].timestamp < 5 * MINUTE
            && shortLog[5999] in result && shortLog[5999].timestamp == 10 * MINUTE
  {
    assert Latest(shortLog, SHORT) == shortLog[5700..] && Latest(longLog, LONG) == longLog;
    forall p
      ensures p in Merged(shortLog, longLog, 0, 10 * MINUTE - SHORT_WINDOW)
              <==> p in shortLog[5700..] || (p in longLog && p.timestamp < 5 * MINUTE)
    {
      MergedMembers(shortLog, longLog, 0, 10 * MINUTE - SHORT_WINDOW, p);
    }
    hide Merged, Latest;
    assert shortLog[5999] == shortLog[5700..][299];
    assert shortLog[5999].timestamp == 6000 * (SECOND / 10);
    assert longLog[0] in longLog;
  }

  lemma {:induction false} BackStamped(log: seq<DataPoint>, n: nat, cutoff: int)
    requires Stamped(log)
    ensures forall p :: p in Back(log, n, cutoff) ==> p.timestamp != 0
  {
    if log != [] && n > 0 && log[|log| - 1].timestamp >= cutoff {
      BackStamped(log[..|log| - 1], n - 1, cutoff);
    }
  }
}
