/**
 The queue matrix used by one goroutine at a time: 48 bounded FIFOs, a depth counter, a wake token and a
 closed flag, proved against one list of the held requests in submission order.
 */
module QueueMatrix {
  import opened Arithmetic
  import opened Models
  import opened Ordering

  datatype Error = InvalidRequest | QueueFull | ShuttingDown

  // ----- The list the matrix stands for -----

  /** The first sub-queue in scan order that holds anything. */
  function Front(f: Routing, s: seq<Request>): (k: Rank)
    requires s != []
    ensures exists r :: r in s && f(r) == k
    ensures forall r :: r in s ==> k <= f(r)
  {
    if |s| == 1 then f(s[0])
    else
      var k := Front(f, s[1..]);
      assert s == [s[0]] + s[1..];
      if f(s[0]) <= k then f(s[0]) else k
  }

  /** The list without the first n requests of sub-queue k. */
  function Without(f: Routing, s: seq<Request>, k: int, n: nat): seq<Request> {
    if s == [] || n == 0 then s
    else if f(s[0]) == k then Without(f, s[1..], k, n - 1)
    else [s[0]] + Without(f, s[1..], k, n)
  }

  lemma {:induction false} WithoutSelect(f: Routing, s: seq<Request>, k: int, n: nat, j: int)
    requires n <= |Select(f, s, k)|
    ensures Select(f, Without(f, s, k, n), j) == if j == k then Select(f, s, k)[n..] else Select(f, s, j)
    ensures |Without(f, s, k, n)| == |s| - n
  {
    if s != [] && n > 0 {
      var r, rest := s[0], s[1..];
      assert s == [r] + rest;
      var m := if f(r) == k then n - 1 else n;
      var less := Without(f, rest, k, m);
      assert Without(f, s, k, n) == if f(r) == k then less else [r] + less;
      hide Select, Without;
      SelectHead(f, r, rest, k);
      SelectHead(f, r, rest, j);
      SelectHead(f, r, less, j);
      WithoutSelect(f, rest, k, m, j);
    }
  }

  /** Taking the oldest n requests out of sub-queue k leaves every other sub-queue as it was. */
  lemma Removed(held: seq<Request>, k: Rank, n: nat, queues: seq<seq<Request>>)
    requires |queues| == CELLS && n <= |queues[k]|
    requires forall j: Rank :: queues[j] == Select(Key, held, j)
    ensures |Without(Key, held, k, n)| == |held| - n
    ensures forall j: Rank :: Select(Key, Without(Key, held, k, n), j) == queues[k := queues[k][n..]][j]
  {
    hide *;
    WithoutSelect(Key, held, k, n, k);
    forall j: Rank
      ensures Select(Key, Without(Key, held, k, n), j) == queues[k := queues[k][n..]][j]
    {
      WithoutSelect(Key, held, k, n, j);
    }
  }

  lemma LevelIs(p: int)
    ensures PriorityIndex(p) == Level(p) < PRIORITIES
  {
  }

  /** A request joins its own sub-queue only. */
  lemma Filed(held: seq<Request>, r: Request, queues: seq<seq<Request>>)
    requires |queues| == CELLS
    requires forall j: Rank :: queues[j] == Select(Key, held, j)
    ensures forall j: Rank :: Select(Key, held + [r], j) == queues[Key(r) := queues[Key(r)] + [r]][j]
  {
    hide *;
    SelectSnoc(Key, held, r);
  }

  function Min(a: int, b: int): int { if a <= b then a else b }

  /** How many requests a drain of sub-queue k takes. */
  function Share(f: Routing, s: seq<Request>, k: int, max: nat): nat {
    Min(max, |Select(f, s, k)|)
  }

  /** What repeated drains of at most max requests return, end to end, until nothing is held. */
  function Serve(f: Routing, s: seq<Request>, max: nat): seq<Request>
    requires max >= 1
    decreases |s|
  {
    if s == [] then []
    else
      var k := Front(f, s);
      var n := Share(f, s, k, max);
      SelectMember(f, s, k);
      WithoutSelect(f, s, k, n, k);
      Select(f, s, k)[..n] + Serve(f, Without(f, s, k, n), max)
  }

  lemma HeadSelect(f: Routing, s: seq<Request>, k: int, n: nat, j: int)
    requires n <= |Select(f, s, k)|
    ensures Select(f, Select(f, s, k)[..n], j) == if j == k then Select(f, s, k)[..n] else []
  {
    var head := Select(f, s, k)[..n];
    SelectMember(f, s, k);
    assert forall r :: r in head ==> r in Select(f, s, k);
    SelectAll(f, head, k);
  }

  lemma RejoinSelect(f: Routing, s: seq<Request>, k: int, n: nat, tail: seq<Request>, j: int)
    requires n <= |Select(f, s, k)| && Select(f, tail, j) == Select(f, Without(f, s, k, n), j)
    ensures Select(f, Select(f, s, k)[..n] + tail, j) == Select(f, s, j)
  {
    hide Select, Without;
    HeadSelect(f, s, k, n, j);
    WithoutSelect(f, s, k, n, j);
    SelectAppend(f, Select(f, s, k)[..n], tail, j);
  }

  lemma {:induction false} ServeSelect(f: Routing, s: seq<Request>, max: nat, j: int)
    requires max >= 1
    ensures Select(f, Serve(f, s, max), j) == Select(f, s, j)
    decreases |s|
  {
    if s != [] {
      var k := Front(f, s);
      var n := Share(f, s, k, max);
      var rest := Without(f, s, k, n);
      SelectMember(f, s, k);
      WithoutSelect(f, s, k, n, k);
      ServeSelect(f, rest, max, j);
      RejoinSelect(f, s, k, n, Serve(f, rest, max), j);
    }
  }

  lemma {:induction false} ServeSorted(f: Routing, s: seq<Request>, max: nat)
    requires max >= 1
    ensures Sorted(f, Serve(f, s, max))
    decreases |s|
  {
    if s != [] {
      var k := Front(f, s);
      var n := Share(f, s, k, max);
      var head, rest := Select(f, s, k)[..n], Without(f, s, k, n);
      SelectMember(f, s, k);
      WithoutSelect(f, s, k, n, k);
      ServeSorted(f, rest, max);
      var tail := Serve(f, rest, max);
      forall i | 0 <= i < |head|
        ensures f(head[i]) == k
      {
        assert head[i] in Select(f, s, k);
      }
      forall j | 0 <= j < |tail|
        ensures k <= f(tail[j])
      {
        var q := f(tail[j]);
        SelectMember(f, tail, q);
        ServeSelect(f, rest, max, q);
        WithoutSelect(f, s, k, n, q);
        SelectMember(f, s, q);
        assert tail[j] in Select(f, rest, q);
        assert tail[j] in s;
      }
    }
  }

  /** Draining until empty, in batches of any size, returns the stable sort by priority descending, type, bucket. */
  lemma DrainsSortStably(f: Routing, s: seq<Request>, max: nat)
    requires max >= 1
    ensures Serve(f, s, max) == StableSort(f, s)
  {
    ServeSorted(f, s, max);
    SortSorted(f, s);
    forall k: Rank
      ensures Select(f, Serve(f, s, max), k) == Select(f, StableSort(f, s), k)
    {
      ServeSelect(f, s, max, k);
      SortSelect(f, s, k);
    }
    SortUnique(f, Serve(f, s, max), StableSort(f, s));
  }

  /** Sub-queues 0 to k - 1, end to end. */
  function Flatten(q: seq<seq<Request>>, k: nat): seq<Request>
    requires k <= |q|
  {
    if k == 0 then [] else Flatten(q, k - 1) + q[k - 1]
  }

  lemma {:induction false} FlattenSorted(f: Routing, q: seq<seq<Request>>, k: nat)
    requires k <= |q| && forall j, r :: 0 <= j < |q| && r in q[j] ==> f(r) == j
    ensures Sorted(f, Flatten(q, k)) && forall r :: r in Flatten(q, k) ==> f(r) < k
  {
    if k > 0 {
      FlattenSorted(f, q, k - 1);
      var a, b := Flatten(q, k - 1), q[k - 1];
      assert forall i :: 0 <= i < |a| ==> a[i] in a;
      assert forall i :: 0 <= i < |b| ==> b[i] in b;
    }
  }

  lemma {:induction false} FlattenSelect(f: Routing, q: seq<seq<Request>>, k: nat, j: nat)
    requires k <= |q| && j < |q| && forall i, r :: 0 <= i < |q| && r in q[i] ==> f(r) == i
    ensures Select(f, Flatten(q, k), j) == if j < k then q[j] else []
  {
    hide Select;
    if k == 0 {
      NoneSelected(f, j);
    } else {
      FlattenSelect(f, q, k - 1, j);
      assert Flatten(q, k) == Flatten(q, k - 1) + q[k - 1];
      AddBlock(f, Flatten(q, k - 1), q[k - 1], k - 1, j);
    }
  }

  lemma NoneSelected(f: Routing, j: int)
    ensures Select(f, [], j) == []
  {
  }

  lemma AddBlock(f: Routing, a: seq<Request>, b: seq<Request>, k: int, j: int)
    requires forall r :: r in b ==> f(r) == k
    ensures Select(f, a + b, j) == if j == k then Select(f, a, j) + b else Select(f, a, j)
  {
    hide Select;
    SelectAll(f, b, k);
    SelectAppend(f, a, b, j);
    assert Select(f, a, j) + [] == Select(f, a, j);
  }

  /** The sub-queues in scan order, end to end, are the stable sort of the list they stand for. */
  lemma FlattenIsSort(f: Routing, q: seq<seq<Request>>, s: seq<Request>)
    requires |q| == CELLS && forall k: Rank :: q[k] == Select(f, s, k)
    ensures Flatten(q, CELLS) == StableSort(f, s)
  {
    forall j, r | 0 <= j < |q| && r in q[j]
      ensures f(r) == j
    {
      SelectMember(f, s, j);
    }
    FlattenSorted(f, q, CELLS);
    SortSorted(f, s);
    forall k: Rank
      ensures Select(f, Flatten(q, CELLS), k) == Select(f, StableSort(f, s), k)
    {
      FlattenSelect(f, q, CELLS, k);
      SortSelect(f, s, k);
    }
    SortUnique(f, Flatten(q, CELLS), StableSort(f, s));
  }

  // ----- The loop of drainSubqueue -----

  datatype Receiving = Receiving(buffer: seq<Request>, got: seq<Request>, done: bool)

  /** One turn of the loop; on a closed, empty channel the source's `break` leaves only the select. */
  function Turn(closed: bool, max: int, l: Receiving): Receiving {
    if l.done || |l.got| >= max then l.(done := true)
    else if l.buffer != [] then Receiving(l.buffer[1..], l.got + [l.buffer[0]], false)
    else if closed then l
    else l.(done := true)
  }

  function Turns(closed: bool, max: int, l: Receiving, n: nat): Receiving
    decreases n
  {
    if n == 0 then l else Turns(closed, max, Turn(closed, max, l), n - 1)
  }

  lemma {:induction false} LoopSpins(max: int, l: Receiving, n: nat)
    requires !l.done && |l.buffer| + |l.got| < max
    ensures !Turns(true, max, l, n).done
    decreases n
  {
    if n > 0 { LoopSpins(max, Turn(true, max, l), n - 1); }
  }

  lemma {:induction false} LoopEnds(closed: bool, max: int, l: Receiving)
    requires !closed || |l.buffer| + |l.got| >= max
    ensures Turns(closed, max, l, |l.buffer| + 1).done
    decreases |l.buffer|
  {
    if !l.done && |l.got| < max && l.buffer != [] {
      LoopEnds(closed, max, Turn(closed, max, l));
    } else {
      var m := Turn(closed, max, l);
      DoneStays(closed, max, m, |l.buffer|);
    }
  }

  lemma {:induction false} DoneStays(closed: bool, max: int, l: Receiving, n: nat)
    requires l.done
    ensures Turns(closed, max, l, n) == l
  {
    if n > 0 { DoneStays(closed, max, l, n - 1); }
  }

  /** drainSubqueue returns exactly when its channel is open or holds all it was asked for. */
  lemma ReturnsIff(closed: bool, max: int, buffer: seq<Request>)
    ensures (exists n: nat :: Turns(closed, max, Receiving(buffer, [], false), n).done)
            <==> !closed || |buffer| >= max
  {
    var l := Receiving(buffer, [], false);
    if !closed || |buffer| >= max {
      LoopEnds(closed, max, l);
    } else {
      forall n: nat
        ensures !Turns(closed, max, l, n).done
      {
        LoopSpins(max, l, n);
      }
    }
  }

  /** The requests of the first sub-queue that holds anything, on their plain fields. */
  lemma FirstServed(held: seq<Request>, p: nat, rt: nat, b: nat, n: nat)
    requires p < PRIORITIES && rt < TYPES && b < BUCKETS
    requires held != [] && Front(Key, held) == Cell(p, rt, b) && n <= |Select(Key, held, Cell(p, rt, b))|
    ensures var reqs := Select(Key, held, Cell(p, rt, b))[..n];
            (forall r, x :: r in held && x in reqs ==> !ServedBefore(r, x))
            && (forall x :: x in reqs ==>
                  IndexToPriority(p) == Level(x.priority) && b == Size(x.estimatedTokens)
                  && IndexToType(rt) == if x.requestType == "embedding" then "embedding" else "completion")
  {
    var k := Cell(p, rt, b);
    SelectMember(Key, held, k);
    forall x | x in Select(Key, held, k)[..n]
      ensures forall r :: r in held ==> !ServedBefore(r, x)
      ensures IndexToPriority(p) == Level(x.priority) && b == Size(x.estimatedTokens)
      ensures IndexToType(rt) == if x.requestType == "embedding" then "embedding" else "completion"
    {
      assert x in Select(Key, held, k);
      InCell(x, p, rt, b);
      forall r | r in held
        ensures !ServedBefore(r, x)
      {
        KeyOrder(r, x);
      }
    }
  }

  lemma InCell(x: Request, p: nat, rt: nat, b: nat)
    requires p < PRIORITIES && rt < TYPES && b < BUCKETS && Key(x) == Cell(p, rt, b)
    ensures IndexToPriority(p) == Level(x.priority) && b == Size(x.estimatedTokens)
    ensures IndexToType(rt) == if x.requestType == "embedding" then "embedding" else "completion"
  {
    TraitsOf(x);
    CoordinatesOf(x);
    CellInjective(PriorityIndex(x.priority), TypeIndex(x.requestType), BucketIndex(TokenBucket(x)), p, rt, b);
  }

  // ----- Draining until nothing is left -----

  lemma ServeStep(f: Routing, s: seq<Request>, max: nat)
    requires max >= 1
    ensures s == [] ==> Serve(f, s, max) == []
    ensures s != [] ==>
      var k := Front(f, s); var n := Share(f, s, k, max);
      n <= |Select(f, s, k)| && Serve(f, s, max) == Select(f, s, k)[..n] + Serve(f, Without(f, s, k, n), max)
      && 0 < n && |Without(f, s, k, n)| == |s| - n
  {
    if s != [] {
      var k := Front(f, s);
      SelectMember(f, s, k);
      WithoutSelect(f, s, k, Share(f, s, k, max), k);
    }
  }

  /** Every sub-queue has the same remainder by max in both lists. */
  ghost predicate SameRest(s: seq<Request>, was: seq<Request>, max: nat)
    requires max >= 1
  {
    forall k: Rank :: |Select(Key, s, k)| % max == |Select(Key, was, k)| % max
  }

  lemma SameAtFirst(s: seq<Request>, max: nat)
    requires max >= 1
    ensures SameRest(s, s, max)
  {
  }

  /** A full drain keeps every remainder. */
  lemma RestKept(s: seq<Request>, was: seq<Request>, max: nat)
    requires max >= 1 && s != [] && SameRest(s, was, max) && |Select(Key, s, Front(Key, s))| >= max
    ensures SameRest(Without(Key, s, Front(Key, s), max), was, max)
  {
    var k := Front(Key, s);
    hide Key, Front, Without, Select;
    forall j: Rank
      ensures |Select(Key, Without(Key, s, k, max), j)| % max == |Select(Key, was, j)| % max
    {
      RestAt(s, k, max, j);
    }
  }

  lemma RestAt(s: seq<Request>, k: Rank, max: nat, j: Rank)
    requires 1 <= max <= |Select(Key, s, k)|
    ensures |Select(Key, Without(Key, s, k, max), j)| % max == |Select(Key, s, j)| % max
  {
    WithoutSelect(Key, s, k, max, j);
    hide *;
    if j == k { LessMod(|Select(Key, s, k)|, max); }
  }

  lemma LessMod(a: nat, m: nat)
    requires 1 <= m <= a
    ensures (a - m) % m == a % m
  {
    var q, r := a / m, a % m;
    assert a == q * m + r;
    assert a - m == (q - 1) * m + r;
    ModIs(a - m, m, q - 1, r);
  }

  /** A drain that spins found a sub-queue that is not a multiple. */
  lemma LeavesRest(s: seq<Request>, was: seq<Request>, max: nat)
    requires max >= 1 && s != [] && SameRest(s, was, max) && 0 < |Select(Key, s, Front(Key, s))| < max
    ensures exists k: Rank :: |Select(Key, was, k)| % max != 0
  {
    var k := Front(Key, s);
    hide Key, Front, Select;
    ModIs(|Select(Key, s, k)|, max, 0, |Select(Key, s, k)|);
    assert |Select(Key, was, k)| % max != 0;
  }

  lemma NoRest(was: seq<Request>, max: nat)
    requires max >= 1 && SameRest([], was, max)
    ensures forall k: Rank :: |Select(Key, was, k)| % max == 0
  {
    assert 0 % max == 0 by { ModIs(0, max, 0, 0); }
    forall k: Rank
      ensures |Select(Key, was, k)| % max == 0
    {
      assert Select(Key, [], k) == [];
    }
  }

  // ----- The matrix -----

  class QueueMatrix {
    var queues: seq<seq<Request>>   // in scan order
    const perQueueCapacity: nat
    var depth: int
    var token: bool                 // the cap-1 event channel
    var closed: bool
    var shut: set<nat>              // closed sub-queue channels
    ghost var held: seq<Request>    // every held request, in submission order
    ghost var lost: nat             // received by drains that never return, so never subtracted

    ghost predicate Valid()
      reads this
    {
      && |queues| == CELLS && perQueueCapacity >= 1
      && depth == |held| + lost
      && (forall k: Rank :: queues[k] == Select(Key, held, k) && |queues[k]| <= perQueueCapacity)
      && (forall k: Rank :: k in shut <==> closed)
    }

    constructor (totalCapacity: int)
      ensures Valid() && held == [] && lost == 0 && !token && !closed
      ensures var t := if totalCapacity < 1 then 1 else totalCapacity;
              16 * (perQueueCapacity - 1) < t <= 16 * perQueueCapacity
    {
      var total := if totalCapacity < 1 then 1 else totalCapacity;
      perQueueCapacity := (total + 15) / 16;
      queues := seq(CELLS, _ => []);
      depth := 0;
      token, closed, shut := false, false, {};
      held, lost := [], 0;
    }

    /** Accepted exactly when open, valid, and fewer than the capacity of the same key are held. */
    method Submit(req: Option<Request>) returns (err: Option<Error>)
      requires Valid()
      modifies this
      ensures Valid() && closed == old(closed) && shut == old(shut) && lost == old(lost)
      ensures err == if req.None? then Some(InvalidRequest)
                     else if old(closed) then Some(ShuttingDown)
                     else if |Select(Key, old(held), Key(req.value))| >= perQueueCapacity then Some(QueueFull)
                     else None
      ensures held == if err.None? then old(held) + [req.value] else old(held)
      ensures token == (old(token) || err.None?)
    {
      if req.None? { return Some(InvalidRequest); }
      if closed { return Some(ShuttingDown); }
      var r := req.value;
      var k := Cell(PriorityIndex(r.priority), TypeIndex(r.requestType), BucketIndex(TokenBucket(r)));
      assert k == Key(r);
      hide Key, Cell, TokenBucket, Select;
      if |queues[k]| >= perQueueCapacity { return Some(QueueFull); }
      Filed(held, r, queues);
      queues := queues[k := queues[k] + [r]];
      held := held + [r];
      depth := depth + 1;
      Signal();
      return None;
    }

    method Signal()
      modifies this`token
      ensures token
    {
      if !token { token := true; }
    }

    /**
     Receives from one sub-queue until it has max requests or the sub-queue is empty. `spins` says that the source
     never returns (see ReturnsIff): it then holds what it received, and depth still counts that.
     */
    method DrainSubqueue(k: nat, max: nat) returns (drained: seq<Request>, spins: bool)
      requires Valid() && k < CELLS
      modifies this`queues, this`depth, this`held, this`lost
      ensures Valid()
      ensures spins <==> closed && |Select(Key, old(held), k)| < max
      ensures var n := Share(Key, old(held), k, max);
              drained == Select(Key, old(held), k)[..n] && held == Without(Key, old(held), k, n)
      ensures lost == old(lost) + if spins then |drained| else 0
    {
      hide Key, Without;
      drained, spins := [], false;
      while |drained| < max && !spins
        invariant |drained| <= max && |queues| == CELLS && queues == old(queues)[k := queues[k]]
        invariant drained + queues[k] == old(queues[k])
        invariant spins ==> closed && queues[k] == [] && |drained| < max
        invariant depth == old(depth) && held == old(held) && lost == old(lost)
        decreases |queues[k]|, !spins
      {
        if queues[k] != [] {
          drained := drained + [queues[k][0]];
          queues := queues[k := queues[k][1..]];
        } else if closed {
          spins := true;
        } else {
          break;
        }
      }
      Settle(k, drained, spins, old(queues));
    }

    /** The receives become visible in depth, unless the drain spins. */
    method Settle(k: nat, drained: seq<Request>, spins: bool, ghost before: seq<seq<Request>>)
      requires k < CELLS && |before| == |queues| == CELLS && queues == before[k := queues[k]]
      requires before[k] == drained + queues[k]
      requires perQueueCapacity >= 1 && depth == |held| + lost
      requires forall j: Rank :: before[j] == Select(Key, held, j) && |before[j]| <= perQueueCapacity
      requires forall j: Rank :: j in shut <==> closed
      modifies this`depth, this`held, this`lost
      ensures Valid()
      ensures held == Without(Key, old(held), k, |drained|)
      ensures lost == old(lost) + if spins then |drained| else 0
    {
      hide Key, Without, Select;
      Removed(held, k, |drained|, before);
      assert before[k][|drained|..] == queues[k];
      if !spins && |drained| > 0 { depth := depth - |drained|; }
      if spins { lost := lost + |drained|; }
      held := Without(Key, held, k, |drained|);
    }

    /** Drains the first non-empty sub-queue in scan order and reports its coordinates. */
    method Drain(max: int) returns (reqs: seq<Request>, priority: int, requestType: string, bucket: int, spins: bool)
      requires Valid()
      modifies this`queues, this`depth, this`held, this`lost
      ensures Valid()
      ensures max <= 0 || old(held) == [] ==> reqs == [] && held == old(held) && !spins
      ensures max > 0 && old(held) != [] ==>
        var k := Front(Key, old(held));
        var n := Share(Key, old(held), k, max);
        reqs == Select(Key, old(held), k)[..n] && reqs != [] && held == Without(Key, old(held), k, n)
        && Cell(PriorityIndex(priority), TypeIndex(requestType), BucketIndex(bucket)) == k
        && (spins <==> closed && |Select(Key, old(held), k)| < max)
      ensures forall r, x :: r in old(held) && x in reqs ==> !ServedBefore(r, x)
      ensures forall x :: x in reqs ==>
        priority == Level(x.priority) && bucket == Size(x.estimatedTokens)
        && requestType == if x.requestType == "embedding" then "embedding" else "completion"
      ensures lost == old(lost) + if spins then |reqs| else 0
    {
      hide Key, Without, Front, Select, ServedBefore, Level, Size;
      reqs, priority, requestType, bucket, spins := [], NORMAL, COMPLETION, 0, false;
      if max <= 0 { return; }
      for p := PRIORITIES downto 0
        invariant unchanged(this)
        invariant forall k: Rank :: k < (PRIORITIES - p) * BLOCK ==> queues[k] == []
      {
        for rt := 0 to TYPES
          invariant unchanged(this)
          invariant forall k: Rank :: k < (PRIORITIES - 1 - p) * BLOCK + rt * BUCKETS ==> queues[k] == []
        {
          for b := 0 to BUCKETS
            invariant unchanged(this)
            invariant forall k: Rank :: k < (PRIORITIES - 1 - p) * BLOCK + rt * BUCKETS + b ==> queues[k] == []
          {
            var k := Cell(p, rt, b);
            if queues[k] != [] {
              FrontIs(k);
              ghost var before := held;
              reqs, spins := DrainSubqueue(k, max);
              CoordinatesRoundTrip(p, rt, b);
              FirstServed(before, p, rt, b, |reqs|);
              return reqs, IndexToPriority(p), IndexToType(rt), b, spins;
            }
          }
        }
      }
      NothingHeld();
    }

    /**
     Drains until nothing is left: the stable sort of what was held. On a closed matrix that works exactly when every
     sub-queue holds a multiple of max.
     */
    method DrainOut(max: nat) returns (out: seq<Request>, spins: bool)
      requires Valid() && max >= 1
      modifies this`queues, this`depth, this`held, this`lost
      ensures Valid()
      ensures spins <==> closed && exists k: Rank :: |Select(Key, old(held), k)| % max != 0
      ensures !spins ==> held == [] && out == StableSort(Key, old(held)) && lost == old(lost)
    {
      hide Key, Without, Front, Select, Serve, SameRest, StableSort;
      out, spins := [], false;
      DrainsSortStably(Key, held, max);
      SameAtFirst(held, max);
      while true
        invariant Valid() && lost == old(lost) && out + Serve(Key, held, max) == Serve(Key, old(held), max)
        invariant closed ==> SameRest(held, old(held), max)
        decreases |held|
      {
        ghost var before := held;
        var reqs, _, _, _, s := Drain(max);
        ServeStep(Key, before, max);
        if s {
          LeavesRest(before, old(held), max);
          return out + reqs, true;
        }
        if reqs == [] {
          if closed { NoRest(old(held), max); }
          return out, false;
        }
        if closed { RestKept(before, old(held), max); }
        out := out + reqs;
      }
    }

    /** Every cell before k is empty and k is not: k is where the scan stops. */
    lemma FrontIs(k: Rank)
      requires Valid() && queues[k] != [] && forall j: Rank :: j < k ==> queues[j] == []
      ensures held != [] && Front(Key, held) == k
    {
      hide Key;
      SelectMember(Key, held, k);
      assert queues[k][0] in queues[k];
      var j := Front(Key, held);
      SelectMember(Key, held, j);
      var r :| r in held && Key(r) == j;
      assert r in queues[j];
    }

    lemma NothingHeld()
      requires Valid() && forall j: Rank :: queues[j] == []
      ensures held == []
    {
      hide Key;
      if held != [] {
        var k := Key(held[0]);
        assert queues[k] == Select(Key, held, k);
        SelectMember(Key, held, k);
      }
    }

    /** Takes more from the sub-queue a drain reported. */
    method DrainFrom(priority: int, requestType: string, bucket: int, max: int)
      returns (reqs: seq<Request>, spins: bool)
      requires Valid()
      modifies this`queues, this`depth, this`held, this`lost
      ensures Valid()
      ensures var k := Cell(PriorityIndex(priority), TypeIndex(requestType), BucketIndex(bucket));
              var n := if max <= 0 then 0 else Share(Key, old(held), k, max);
              reqs == Select(Key, old(held), k)[..n] && held == Without(Key, old(held), k, n)
              && (spins <==> closed && 0 < |Select(Key, old(held), k)| < max)
      ensures lost == old(lost) + if spins then |reqs| else 0
    {
      if max <= 0 { return [], false; }
      var k := Cell(PriorityIndex(priority), TypeIndex(requestType), BucketIndex(bucket));
      hide Key;
      if |queues[k]| == 0 { return [], false; }
      reqs, spins := DrainSubqueue(k, max);
    }

    /** No sub-queue strictly between the two priority indices holds anything. */
    ghost predicate NoneBetween(low: nat, high: nat)
      requires high <= PRIORITIES && |queues| == CELLS
      reads this
    {
      forall q: nat, t: nat, c: nat :: low < q < high && t < TYPES && c < BUCKETS ==> queues[Cell(q, t, c)] == []
    }

    /** Whether any held request belongs to a strictly higher priority. */
    method HasHigherPriorityThan(p: int) returns (found: bool)
      requires Valid()
      ensures found <==> exists r :: r in held && Level(r.priority) > Level(p)
    {
      hide Select;
      LevelIs(p);
      assert forall r :: r in held ==> PriorityIndex(r.priority) == Level(r.priority) by { HeldLevels(); }
      hide PriorityIndex, Level;
      for higher := PriorityIndex(p) + 1 to PRIORITIES
        invariant NoneBetween(PriorityIndex(p), higher)
      {
        for rt := 0 to TYPES
          invariant NoneBetween(PriorityIndex(p), higher)
          invariant forall t: nat, c: nat :: t < rt && c < BUCKETS ==> queues[Cell(higher, t, c)] == []
        {
          for b := 0 to BUCKETS
            invariant forall c: nat :: c < b ==> queues[Cell(higher, rt, c)] == []
          {
            if |queues[Cell(higher, rt, b)]| > 0 {
              HeldIn(higher, rt, b);
              return true;
            }
          }
        }
      }
      NoneHigher(PriorityIndex(p));
      return false;
    }

    lemma HeldLevels()
      ensures forall r :: r in held ==> PriorityIndex(r.priority) == Level(r.priority)
    {
    }

    lemma NoneHigher(p: nat)
      requires Valid() && p < PRIORITIES
      requires NoneBetween(p, PRIORITIES)
      ensures forall r :: r in held ==> PriorityIndex(r.priority) <= p
    {
      forall r | r in held
        ensures PriorityIndex(r.priority) <= p
      {
        var k := Key(r);
        assert queues[k] == Select(Key, held, k);
        SelectMember(Key, held, k);
      }
    }

    lemma HeldIn(p: nat, rt: nat, b: nat)
      requires Valid() && p < PRIORITIES && rt < TYPES && b < BUCKETS && queues[Cell(p, rt, b)] != []
      ensures exists r :: r in held && PriorityIndex(r.priority) == p
    {
      var k := Cell(p, rt, b);
      var r := queues[k][0];
      SelectMember(Key, held, k);
      assert r in queues[k];
      CellInjective(PriorityIndex(r.priority), TypeIndex(r.requestType), BucketIndex(TokenBucket(r)), p, rt, b);
    }

    /** Empties every sub-queue in scan order: the stable sort of what was held. Works on a closed matrix too. */
    method DrainAll() returns (out: seq<Request>)
      requires Valid()
      modifies this`queues, this`depth, this`held, this`lost
      ensures Valid() && held == [] && lost == 0 && depth == 0
      ensures out == StableSort(Key, old(held))
    {
      hide Key, Select, Flatten;
      ghost var before := queues;
      assert Flatten(before, 0) == [] by { FlattenNone(before); }
      out := [];
      for p := PRIORITIES downto 0
        invariant held == old(held) && |queues| == CELLS && out == Flatten(before, (PRIORITIES - p) * BLOCK)
        invariant forall k: Rank :: queues[k] == if k < (PRIORITIES - p) * BLOCK then [] else before[k]
      {
        for rt := 0 to TYPES
          invariant held == old(held) && |queues| == CELLS
          invariant out == Flatten(before, (PRIORITIES - 1 - p) * BLOCK + rt * BUCKETS)
          invariant forall k: Rank ::
            queues[k] == if k < (PRIORITIES - 1 - p) * BLOCK + rt * BUCKETS then [] else before[k]
        {
          for b := 0 to BUCKETS
            invariant held == old(held) && |queues| == CELLS
            invariant out == Flatten(before, (PRIORITIES - 1 - p) * BLOCK + rt * BUCKETS + b)
            invariant forall k: Rank ::
              queues[k] == if k < (PRIORITIES - 1 - p) * BLOCK + rt * BUCKETS + b then [] else before[k]
          {
            var more := DrainChannel(Cell(p, rt, b));
            FlattenNext(before, Cell(p, rt, b));
            out := out + more;
          }
        }
      }
      FlattenIsSort(Key, before, held);
      depth := 0;
      held, lost := [], 0;
      assert forall k: Rank :: Select(Key, [], k) == [] by { SelectNone(); }
    }

    static lemma FlattenNone(q: seq<seq<Request>>)
      ensures Flatten(q, 0) == []
    {
    }

    static lemma FlattenNext(q: seq<seq<Request>>, k: nat)
      requires k < |q|
      ensures Flatten(q, k + 1) == Flatten(q, k) + q[k]
    {
    }

    static lemma SelectNone()
      ensures forall k: int :: Select(Key, [], k) == []
    {
    }

    /** Receives from one channel, open or closed, until it is empty. */
    method DrainChannel(k: nat) returns (out: seq<Request>)
      requires k < |queues|
      modifies this`queues
      ensures out == old(queues[k]) && queues == old(queues)[k := []]
    {
      out := [];
      while queues[k] != []
        invariant |queues| == |old(queues)| && queues == old(queues)[k := queues[k]]
        invariant out + queues[k] == old(queues[k])
        decreases |queues[k]|
      {
        out := out + [queues[k][0]];
        queues := queues[k := queues[k][1..]];
      }
    }

    /** Closes once; what is queued stays drainable. */
    method Close()
      requires Valid()
      modifies this`closed, this`shut
      ensures Valid() && closed
    {
      hide Key, Select;
      if closed { return; }
      closed := true;
      for p := 0 to PRIORITIES
        invariant closed && forall k: Rank :: k >= (PRIORITIES - p) * BLOCK ==> k in shut
      {
        for rt := 0 to TYPES
          invariant closed && forall k: Rank :: k >= (PRIORITIES - p) * BLOCK ==> k in shut
          invariant var from := (PRIORITIES - 1 - p) * BLOCK;
                    forall k: Rank :: from <= k < from + rt * BUCKETS ==> k in shut
        {
          for b := 0 to BUCKETS
            invariant closed && forall k: Rank :: k >= (PRIORITIES - p) * BLOCK ==> k in shut
            invariant var from := (PRIORITIES - 1 - p) * BLOCK;
                      forall k: Rank :: from <= k < from + rt * BUCKETS + b ==> k in shut
          {
            shut := shut + {Cell(p, rt, b)};
          }
        }
      }
    }
  }

  lemma {:induction false} FlattenLength(q: seq<seq<Request>>, k: nat, cap: nat)
    requires k <= |q| && forall j :: 0 <= j < |q| ==> |q[j]| <= cap
    ensures |Flatten(q, k)| <= k * cap
  {
    if k > 0 {
      FlattenLength(q, k - 1, cap);
      assert (k - 1) * cap + cap == k * cap;
    }
  }

  lemma {:induction false} InsertLength(f: Routing, r: Request, s: seq<Request>)
    ensures |Insert(f, r, s)| == |s| + 1
  {
    if s != [] && f(r) > f(s[0]) { InsertLength(f, r, s[1..]); }
  }

  lemma {:induction false} SortLength(f: Routing, s: seq<Request>)
    ensures |StableSort(f, s)| == |s|
  {
    if s != [] {
      SortLength(f, s[1..]);
      InsertLength(f, s[0], StableSort(f, s[1..]));
    }
  }

  /** A matrix built for a capacity of t holds up to 48 sub-queues' worth, which may exceed t but not 3t + 45. */
  lemma HeldBound(f: Routing, s: seq<Request>, t: nat, per: nat)
    requires 16 * (per - 1) < t <= 16 * per && forall k: Rank :: |Select(f, s, k)| <= per
    ensures |s| <= CELLS * per <= 3 * t + 45
  {
    var q := seq(CELLS, (k: int) => Select(f, s, k));
    FlattenIsSort(f, q, s);
    FlattenLength(q, CELLS, per);
    SortLength(f, s);
  }

  // ----- The bound is reached -----

  /** A request of the given coordinates. */
  function Sample(id: nat, p: nat, rt: nat, b: nat): Request {
    Request(id, IndexToPriority(p), IndexToType(rt), if b < |THRESHOLDS| then THRESHOLDS[b] else THRESHOLDS[4] + 1)
  }

  lemma SampleKey(id: nat, p: nat, rt: nat, b: nat)
    requires p < PRIORITIES && rt < TYPES && b < BUCKETS
    ensures Key(Sample(id, p, rt, b)) == Cell(p, rt, b)
  {
    var r := Sample(id, p, rt, b);
    CoordinatesRoundTrip(p, rt, b);
    assert TokenBucket(r) == b by {
      if b < |THRESHOLDS| { BucketAtMost(r, b); }
      if b > 0 { BucketAtMost(r, b - 1); }
    }
  }

  /** Fills one empty sub-queue and leaves the others alone. */
  method FillOne(m: QueueMatrix, p: nat, rt: nat, b: nat)
    requires p < PRIORITIES && rt < TYPES && b < BUCKETS
    requires m.Valid() && !m.closed && Select(Key, m.held, Cell(p, rt, b)) == []
    modifies m
    ensures m.Valid() && !m.closed && |m.held| == |old(m.held)| + m.perQueueCapacity
    ensures forall k: Rank :: k != Cell(p, rt, b) ==> Select(Key, m.held, k) == Select(Key, old(m.held), k)
  {
    ghost var key := Cell(p, rt, b);
    hide Key, Select, Cell, Sample;
    for i := 0 to m.perQueueCapacity
      invariant m.Valid() && !m.closed && |m.held| == |old(m.held)| + i && |Select(Key, m.held, key)| == i
      invariant forall k: Rank :: k != key ==> Select(Key, m.held, k) == Select(Key, old(m.held), k)
    {
      var r := Sample(i, p, rt, b);
      SampleKey(i, p, rt, b);
      SelectSnoc(Key, m.held, r);
      var err := m.Submit(Some(r));
    }
  }

  /** The requests a matrix can hold at once always number more than the capacity it was built for. */
  method Overfill(totalCapacity: int) returns (m: QueueMatrix)
    ensures fresh(m) && m.Valid() && |m.held| == CELLS * m.perQueueCapacity
    ensures |m.held| > totalCapacity && |m.held| >= 3 * totalCapacity
  {
    hide Key, Select;
    m := new QueueMatrix(totalCapacity);
    assert Filled(m, 0) by { QueueMatrix.SelectNone(); }
    hide Filled;
    for p := PRIORITIES downto 0
      invariant fresh(m) && Filled(m, (PRIORITIES - p) * BLOCK)
    {
      for rt := 0 to TYPES
        invariant fresh(m) && Filled(m, (PRIORITIES - 1 - p) * BLOCK + rt * BUCKETS)
      {
        for b := 0 to BUCKETS
          invariant fresh(m) && Filled(m, (PRIORITIES - 1 - p) * BLOCK + rt * BUCKETS + b)
        {
          FillNext(m, p, rt, b);
        }
      }
    }
    FilledAll(m);
  }

  method FillNext(m: QueueMatrix, p: nat, rt: nat, b: nat)
    requires p < PRIORITIES && rt < TYPES && b < BUCKETS && Filled(m, Cell(p, rt, b))
    modifies m
    ensures Filled(m, Cell(p, rt, b) + 1)
  {
    hide Key, Select, Cell;
    ghost var n := Cell(p, rt, b);
    FillOne(m, p, rt, b);
    OneMoreFull(n, m.perQueueCapacity);
  }

  lemma OneMoreFull(n: nat, per: nat)
    ensures (n + 1) * per == n * per + per
  {
  }

  lemma FilledAll(m: QueueMatrix)
    requires Filled(m, CELLS)
    ensures m.Valid() && |m.held| == CELLS * m.perQueueCapacity
  {
  }

  /** The first n sub-queues in scan order are full and the others empty. */
  ghost predicate Filled(m: QueueMatrix, n: nat)
    reads m
  {
    && m.Valid() && !m.closed && |m.held| == n * m.perQueueCapacity
    && forall k: Rank :: k >= n ==> Select(Key, m.held, k) == []
  }
}
