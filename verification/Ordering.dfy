/** Orders on request lists: the requests of one sub-queue, and the stable sort by scan order. */
module Ordering {
  import opened Models

  /** A rule that files each request into a sub-queue; `Key` is the source's. */
  type Routing = Request -> Rank

  /** The requests of sub-queue k, in list order. */
  function Select(f: Routing, s: seq<Request>, k: int): seq<Request> {
    if s == [] then [] else (if f(s[0]) == k then [s[0]] else []) + Select(f, s[1..], k)
  }

  lemma {:induction false} SelectAppend(f: Routing, a: seq<Request>, b: seq<Request>, k: int)
    ensures Select(f, a + b, k) == Select(f, a, k) + Select(f, b, k)
  {
    if a == [] {
      assert a + b == b;
    } else {
      SelectAppend(f, a[1..], b, k);
      assert (a + b)[1..] == a[1..] + b && (a + b)[0] == a[0];
    }
  }

  lemma SelectHead(f: Routing, r: Request, s: seq<Request>, k: int)
    ensures Select(f, [r] + s, k) == if f(r) == k then [r] + Select(f, s, k) else Select(f, s, k)
  {
    assert ([r] + s)[1..] == s;
  }

  lemma SelectOne(f: Routing, r: Request, k: int)
    ensures Select(f, [r], k) == if f(r) == k then [r] else []
  {
    assert [r][1..] == [];
  }

  /** Appending one request extends its own sub-queue and no other. */
  lemma SelectSnoc(f: Routing, s: seq<Request>, r: Request)
    ensures forall k: int :: Select(f, s + [r], k) == if f(r) == k then Select(f, s, k) + [r] else Select(f, s, k)
  {
    forall k: int
      ensures Select(f, s + [r], k) == if f(r) == k then Select(f, s, k) + [r] else Select(f, s, k)
    {
      SelectAppend(f, s, [r], k);
      SelectOne(f, r, k);
    }
  }

  lemma {:induction false} SelectMember(f: Routing, s: seq<Request>, k: int)
    ensures forall r :: r in Select(f, s, k) <==> r in s && f(r) == k
  {
    if s != [] {
      SelectMember(f, s[1..], k);
      assert s == [s[0]] + s[1..];
    }
  }

  lemma {:induction false} SelectAll(f: Routing, s: seq<Request>, k: int)
    requires forall r :: r in s ==> f(r) == k
    ensures Select(f, s, k) == s
    ensures forall j: int :: j != k ==> Select(f, s, j) == []
  {
    if s != [] {
      assert forall r :: r in s[1..] ==> r in s;
      SelectAll(f, s[1..], k);
      assert s == [s[0]] + s[1..];
    }
  }

  // ----- The stable sort by scan order -----

  ghost predicate Sorted(f: Routing, s: seq<Request>) {
    forall i, j :: 0 <= i < j < |s| ==> f(s[i]) <= f(s[j])
  }

  function Insert(f: Routing, r: Request, s: seq<Request>): seq<Request> {
    if s == [] || f(r) <= f(s[0]) then [r] + s else [s[0]] + Insert(f, r, s[1..])
  }

  /** Insertion sort; a request goes before those of its own sub-queue that follow it, so the sort is stable. */
  function StableSort(f: Routing, s: seq<Request>): seq<Request> {
    if s == [] then [] else Insert(f, s[0], StableSort(f, s[1..]))
  }

  lemma {:induction false} InsertMember(f: Routing, r: Request, s: seq<Request>)
    ensures forall x :: x in Insert(f, r, s) <==> x == r || x in s
  {
    if s != [] && f(r) > f(s[0]) {
      InsertMember(f, r, s[1..]);
      assert s == [s[0]] + s[1..];
    }
  }

  lemma {:induction false} InsertSorted(f: Routing, r: Request, s: seq<Request>)
    requires Sorted(f, s)
    ensures Sorted(f, Insert(f, r, s))
  {
    if s != [] && f(r) > f(s[0]) {
      InsertSorted(f, r, s[1..]);
      InsertMember(f, r, s[1..]);
      var t := Insert(f, r, s[1..]);
      forall j | 0 <= j < |t|
        ensures f(s[0]) <= f(t[j])
      {
        assert t[j] in t;
      }
    }
  }

  lemma {:induction false} InsertSelect(f: Routing, r: Request, s: seq<Request>, k: int)
    ensures Select(f, Insert(f, r, s), k) == Select(f, [r] + s, k)
  {
    if s != [] && f(r) > f(s[0]) {
      InsertSelect(f, r, s[1..], k);
      assert ([r] + s)[1..] == s && ([r] + s[1..])[1..] == s[1..];
      assert ([s[0]] + Insert(f, r, s[1..]))[1..] == Insert(f, r, s[1..]);
    }
  }

  lemma {:induction false} SortSorted(f: Routing, s: seq<Request>)
    ensures Sorted(f, StableSort(f, s))
  {
    if s != [] {
      SortSorted(f, s[1..]);
      InsertSorted(f, s[0], StableSort(f, s[1..]));
    }
  }

  lemma {:induction false} SortSelect(f: Routing, s: seq<Request>, k: int)
    ensures Select(f, StableSort(f, s), k) == Select(f, s, k)
  {
    if s != [] {
      SortSelect(f, s[1..], k);
      InsertSelect(f, s[0], StableSort(f, s[1..]), k);
      assert ([s[0]] + StableSort(f, s[1..]))[1..] == StableSort(f, s[1..]);
    }
  }

  /** A list in scan order is determined by what it holds of each sub-queue. */
  lemma {:induction false} SortUnique(f: Routing, a: seq<Request>, b: seq<Request>)
    requires Sorted(f, a) && Sorted(f, b) && forall k: Rank :: Select(f, a, k) == Select(f, b, k)
    ensures a == b
  {
    if a == [] {
      if b != [] { SomeSelect(f, b); }
    } else if b == [] {
      SomeSelect(f, a);
    } else {
      HeadIsLeast(f, a, b);
      HeadIsLeast(f, b, a);
      var k := f(a[0]);
      assert Select(f, a, k)[0] == a[0] && Select(f, b, k)[0] == b[0];
      forall j: Rank
        ensures Select(f, a[1..], j) == Select(f, b[1..], j)
      {
        assert Select(f, a, j) == Select(f, b, j);
        assert Select(f, a[1..], j) == if j == k then Select(f, a, j)[1..] else Select(f, a, j);
        assert Select(f, b[1..], j) == if j == k then Select(f, b, j)[1..] else Select(f, b, j);
      }
      SortUnique(f, a[1..], b[1..]);
      assert a == [a[0]] + a[1..] && b == [b[0]] + b[1..];
    }
  }

  lemma SomeSelect(f: Routing, s: seq<Request>)
    requires s != []
    ensures exists k: Rank :: Select(f, s, k) != []
  {
    assert Select(f, s, f(s[0])) != [];
  }

  lemma HeadIsLeast(f: Routing, a: seq<Request>, b: seq<Request>)
    requires a != [] && b != [] && Sorted(f, a) && forall k: Rank :: Select(f, a, k) == Select(f, b, k)
    ensures f(a[0]) <= f(b[0])
  {
    var k := f(b[0]);
    SelectMember(f, a, k);
    SelectMember(f, b, k);
    assert b[0] in Select(f, b, k);
    assert b[0] in Select(f, a, k);
    var i :| 0 <= i < |a| && a[i] == b[0];
  }

  // ----- Counting one request x -----

  function Count(s: seq<Request>, x: Request): nat {
    if s == [] then 0 else Count(s[..|s| - 1], x) + One(s[|s| - 1], x)
  }

  function One(r: Request, x: Request): nat { if r == x then 1 else 0 }

  lemma CountSnoc(s: seq<Request>, r: Request, x: Request)
    ensures Count(s + [r], x) == Count(s, x) + One(r, x)
  {
    assert (s + [r])[..|s|] == s;
  }

  lemma {:induction false} CountAppend(s: seq<Request>, t: seq<Request>, x: Request)
    ensures Count(s + t, x) == Count(s, x) + Count(t, x)
  {
    if t == [] {
      assert s + t == s;
    } else {
      var n := |t| - 1;
      assert s + t == (s + t[..n]) + [t[n]];
      CountSnoc(s + t[..n], t[n], x);
      CountAppend(s, t[..n], x);
    }
  }

  lemma CountHead(s: seq<Request>, x: Request)
    requires s != []
    ensures Count(s, x) == One(s[0], x) + Count(s[1..], x)
  {
    assert s == [s[0]] + s[1..];
    CountAppend([s[0]], s[1..], x);
    CountSnoc([], s[0], x);
    assert [] + [s[0]] == [s[0]];
  }

  lemma {:induction false} CountIn(s: seq<Request>, x: Request)
    ensures Count(s, x) > 0 <==> x in s
  {
    if s != [] {
      CountIn(s[..|s| - 1], x);
      assert s == s[..|s| - 1] + [s[|s| - 1]];
    }
  }
}
