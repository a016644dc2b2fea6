/** Requests and the routing key that files each of them into one of 48 sub-queues. */
module Models {

  /** The source's `nil` pointers are `None`. */
  datatype Option<+T> = None | Some(value: T)

  /** A request; `id` stands for its identity. `priority` is a plain integer, as in the source. */
  datatype Request = Request(id: nat, priority: int, requestType: string, estimatedTokens: int)

  const PRIORITIES := 4
  const TYPES := 2
  const BUCKETS := 6
  const BLOCK := 12
  const CELLS := 48

  const LOW := 0
  const NORMAL := 1
  const HIGH := 2
  const CRITICAL := 3

  const COMPLETION := "completion"
  const EMBEDDING := "embedding"

  const THRESHOLDS: seq<int> := [128, 512, 1024, 2048, 4096]

  /** The first threshold that the estimate does not exceed, looking from the i-th on. */
  function BucketFrom(tokens: int, i: nat): (b: nat)
    requires i <= |THRESHOLDS|
    ensures i <= b <= |THRESHOLDS|
    ensures forall j :: i <= j < b ==> THRESHOLDS[j] < tokens
    ensures b < |THRESHOLDS| ==> tokens <= THRESHOLDS[b]
    decreases |THRESHOLDS| - i
  {
    if i == |THRESHOLDS| || tokens <= THRESHOLDS[i] then i else BucketFrom(tokens, i + 1)
  }

  function TokenBucket(r: Request): (b: nat) {
    BucketFrom(r.estimatedTokens, 0)
  }

  function PriorityIndex(p: int): nat {
    if 0 <= p < PRIORITIES then p else NORMAL
  }

  function IndexToPriority(i: int): int {
    if i == 0 then LOW else if i == 2 then HIGH else if i == 3 then CRITICAL else NORMAL
  }

  function TypeIndex(t: string): nat {
    if t == EMBEDDING then 1 else 0
  }

  function IndexToType(i: int): string {
    if i == 1 then EMBEDDING else COMPLETION
  }

  function BucketIndex(b: int): nat {
    if b < 0 then 0 else if b >= BUCKETS then BUCKETS - 1 else b
  }

  type Rank = k: nat | k < CELLS

  /** Position of a sub-queue in the scan order: priority descending, then type, then bucket. */
  function Cell(p: nat, rt: nat, b: nat): Rank
    requires p < PRIORITIES && rt < TYPES && b < BUCKETS
  {
    (PRIORITIES - 1 - p) * BLOCK + rt * BUCKETS + b
  }

  /** The sub-queue a request is filed in. */
  function Key(r: Request): Rank {
    Cell(PriorityIndex(r.priority), TypeIndex(r.requestType), BucketIndex(TokenBucket(r)))
  }

  /** Priority index of a sub-queue, which is also the index of its batch channel. */
  function ClassOf(k: Rank): nat {
    PRIORITIES - 1 - k / BLOCK
  }

  /** Two requests share a sub-queue exactly when all three routing traits agree. */
  lemma SameKeyIff(a: Request, b: Request)
    ensures Key(a) == Key(b) <==>
      PriorityIndex(a.priority) == PriorityIndex(b.priority)
      && TypeIndex(a.requestType) == TypeIndex(b.requestType)
      && TokenBucket(a) == TokenBucket(b)
  {
    var pa, pb := PriorityIndex(a.priority), PriorityIndex(b.priority);
    var ta, tb := TypeIndex(a.requestType), TypeIndex(b.requestType);
    assert pa < 4 && pb < 4 && ta < 2 && tb < 2;
    CellInjective(pa, ta, TokenBucket(a), pb, tb, TokenBucket(b));
  }

  lemma CellInjective(p: nat, rt: nat, b: nat, p': nat, rt': nat, b': nat)
    requires p < PRIORITIES && rt < TYPES && b < BUCKETS
    requires p' < PRIORITIES && rt' < TYPES && b' < BUCKETS
    ensures Cell(p, rt, b) == Cell(p', rt', b') <==> p == p' && rt == rt' && b == b'
  {
    assert Cell(p, rt, b) % BUCKETS == b && Cell(p', rt', b') % BUCKETS == b';
  }

  /** The coordinates a drain reports lead back to the sub-queue it drained. */
  lemma CoordinatesRoundTrip(p: nat, rt: nat, b: nat)
    requires p < PRIORITIES && rt < TYPES && b < BUCKETS
    ensures Cell(PriorityIndex(IndexToPriority(p)), TypeIndex(IndexToType(rt)), BucketIndex(b)) == Cell(p, rt, b)
    ensures ClassOf(Cell(p, rt, b)) == p
  {
    assert p == 0 || p == 1 || p == 2 || p == 3;
  }

  /** Token buckets partition the estimates: bucket at most i exactly up to the i-th threshold. */
  lemma BucketAtMost(r: Request, i: nat)
    requires i < |THRESHOLDS|
    ensures TokenBucket(r) <= i <==> r.estimatedTokens <= THRESHOLDS[i]
  {
    var b := TokenBucket(r);
    assert forall j, k :: 0 <= j <= k < |THRESHOLDS| ==> THRESHOLDS[j] <= THRESHOLDS[k];
  }

  // ----- The routing key on plain fields -----

  /** The class a request is served in: its priority, or Normal when that is out of range. */
  function Level(priority: int): nat {
    if priority == 3 then 3 else if priority == 2 then 2 else if priority == 0 then 0 else 1
  }

  /** The size class, by the literal limits. */
  function Size(tokens: int): nat {
    if tokens <= 128 then 0
    else if tokens <= 512 then 1
    else if tokens <= 1024 then 2
    else if tokens <= 2048 then 3
    else if tokens <= 4096 then 4
    else 5
  }

  /** Sub-queues of higher priority come first, then completions before embeddings, then smaller sizes. */
  ghost predicate ServedBefore(a: Request, b: Request) {
    Level(a.priority) > Level(b.priority)
    || (Level(a.priority) == Level(b.priority)
        && ((a.requestType != "embedding" && b.requestType == "embedding")
            || ((a.requestType == "embedding") == (b.requestType == "embedding")
                && Size(a.estimatedTokens) < Size(b.estimatedTokens))))
  }

  lemma TraitsOf(r: Request)
    ensures PriorityIndex(r.priority) == Level(r.priority)
    ensures 0 <= r.priority < 4 ==> Level(r.priority) == r.priority
    ensures !(0 <= r.priority < 4) ==> Level(r.priority) == 1
    ensures TypeIndex(r.requestType) == if r.requestType == "embedding" then 1 else 0
    ensures TokenBucket(r) == BucketIndex(TokenBucket(r)) == Size(r.estimatedTokens)
    ensures ClassOf(Key(r)) == Level(r.priority)
  {
    forall i: nat | i < |THRESHOLDS|
      ensures TokenBucket(r) <= i <==> r.estimatedTokens <= THRESHOLDS[i]
    {
      BucketAtMost(r, i);
    }
    assert THRESHOLDS[0] == 128 && THRESHOLDS[1] == 512 && THRESHOLDS[2] == 1024 && THRESHOLDS[3] == 2048;
    assert THRESHOLDS[4] == 4096;
    var b := TokenBucket(r);
    assert b <= 5;
    assert b == Size(r.estimatedTokens);
    hide TokenBucket, Size;
  }

  /** Scan order is the order of service on the plain fields of the requests. */
  lemma KeyOrder(a: Request, b: Request)
    ensures Key(a) < Key(b) <==> ServedBefore(a, b)
  {
    TraitsOf(a);
    TraitsOf(b);
    hide TokenBucket, PriorityIndex, TypeIndex, BucketIndex;
  }

  /** What the coordinates of a sub-queue say about its requests, in the source's own names. */
  lemma CoordinatesOf(r: Request)
    ensures IndexToPriority(PriorityIndex(r.priority)) == Level(r.priority)
    ensures IndexToType(TypeIndex(r.requestType)) == if r.requestType == "embedding" then "embedding" else "completion"
  {
  }
}
