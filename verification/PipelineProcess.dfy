/**
 The machine's worker against the object: left alone, the machine can handle a batch as Process does, retiring the
 targets of its sends in order with the outcomes they carry, and skipping exactly the requests Process is silent about.
 */
module PipelineProcess {
  import opened Models
  import opened Pipeline
  import opened ProxyWorker

  type Retired = (Request, Outcome)

  /** The worker's steps under the given choices while it handles its batch: where it gets, and what it retires. */
  function Handle(p: WorkerPc, choices: seq<WorkerChoice>, again: WorkerPc): (r: (WorkerPc, seq<Retired>))
    decreases |choices|
  {
    if choices == [] || p.Level? || p.Exited? then (p, [])
    else
      var h := ProcessNext(p, choices[0], again);
      var rest := Handle(h.p, choices[1..], again);
      (rest.0, (if h.out.Some? then [h.out.value] else []) + rest.1)
  }

  lemma Next(p: WorkerPc, ch: WorkerChoice, more: seq<WorkerChoice>, again: WorkerPc)
    requires !p.Level? && !p.Exited?
    ensures var h := ProcessNext(p, ch, again); var rest := Handle(h.p, more, again);
            Handle(p, [ch] + more, again) == (rest.0, (if h.out.Some? then [h.out.value] else []) + rest.1)
  {
    assert ([ch] + more)[1..] == more;
  }

  lemma {:induction false} HandleOn(p: WorkerPc, a: seq<WorkerChoice>, b: seq<WorkerChoice>, again: WorkerPc)
    ensures var first := Handle(p, a, again); var last := Handle(first.0, b, again);
            Handle(p, a + b, again) == (last.0, first.1 + last.1)
    decreases |a|
  {
    hide ProcessNext;
    if a == [] {
      assert a + b == b;
      assert [] + Handle(p, b, again).1 == Handle(p, b, again).1;
    } else if !p.Level? && !p.Exited? {
      assert a == [a[0]] + a[1..] && a + b == [a[0]] + (a[1..] + b);
      HandleOn(ProcessNext(p, a[0], again).p, a[1..], b, again);
      Next(p, a[0], a[1..], again);
      Next(p, a[0], a[1..] + b, again);
      hide Handle;
      var out := ProcessNext(p, a[0], again).out;
      var h, first := if out.Some? then [out.value] else [], Handle(ProcessNext(p, a[0], again).p, a[1..], again);
      var last := Handle(first.0, b, again);
      assert h + (first.1 + last.1) == (h + first.1) + last.1;
    } else {
      var none: seq<Retired> := [];
      assert none + none == none;
    }
  }

  /** The step that ends the handling. */
  lemma Final(p: WorkerPc, ch: WorkerChoice, again: WorkerPc)
    requires !p.Level? && !p.Exited?
    ensures var h := ProcessNext(p, ch, again);
            Handle(p, [ch], again) == (h.p, if h.out.Some? then [h.out.value] else [])
  {
    var h := ProcessNext(p, ch, again);
    assert [ch][1..] == [];
    assert Handle(h.p, [], again) == (h.p, []);
    hide ProcessNext;
    var out := if h.out.Some? then [h.out.value] else [];
    assert out + [] == out;
  }

  /** The outcome a send stands for. */
  function OutcomeOf(d: Delivery): Outcome {
    match d.reply.error
    case None => Pipeline.Answered
    case Some(WorkerUnavailable) => Unavailable
    case Some(ContextDone) => Cancelled
    case Some(EncodeError) => EncodeFailed
  }

  function Sent(d: seq<Delivery>): seq<Retired> {
    seq(|d|, i requires 0 <= i < |d| => (d[i].to, OutcomeOf(d[i])))
  }

  /** Without the requests whose context was found done after the answer. */
  function Spoken(outs: seq<Retired>): seq<Retired> {
    if outs == [] then [] else (if outs[0].1 == Skipped then [] else [outs[0]]) + Spoken(outs[1..])
  }

  function Skips(outs: seq<Retired>): seq<Request> {
    if outs == [] then [] else (if outs[0].1 == Skipped then [outs[0].0] else []) + Skips(outs[1..])
  }

  lemma SpokenHead(p: Retired, outs: seq<Retired>)
    ensures Spoken([p] + outs) == (if p.1 == Skipped then [] else [p]) + Spoken(outs)
    ensures Skips([p] + outs) == (if p.1 == Skipped then [p.0] else []) + Skips(outs)
  {
    assert ([p] + outs)[1..] == outs;
  }

  lemma Assoc<T>(a: seq<T>, b: seq<T>, c: seq<T>)
    ensures a + (b + c) == (a + b) + c
    ensures [] + c == c
  {
  }

  lemma {:induction false} SpokenAppend(a: seq<Retired>, b: seq<Retired>)
    ensures Spoken(a + b) == Spoken(a) + Spoken(b) && Skips(a + b) == Skips(a) + Skips(b)
  {
    if a == [] {
      assert a + b == b;
      assert Spoken(a) == [] && Skips(a) == [];
      hide Spoken, Skips;
      Assoc([], [], Spoken(b));
      Assoc([], [], Skips(b));
    } else {
      hide Spoken, Skips;
      var p, rest := a[0], a[1..];
      assert a == [p] + rest;
      Assoc([p], rest, b);
      SpokenAppend(rest, b);
      SpokenHead(p, rest);
      SpokenHead(p, rest + b);
      Assoc(if p.1 == Skipped then [] else [p], Spoken(rest), Spoken(b));
      Assoc(if p.1 == Skipped then [p.0] else [], Skips(rest), Skips(b));
    }
  }

  /** Live, from the front. */
  lemma {:induction false} LiveHead(s: seq<Request>, flags: seq<bool>)
    requires |flags| == |s| && s != []
    ensures Live(s, flags) == (if flags[0] then [] else [s[0]]) + Live(s[1..], flags[1..])
  {
    var n := |s| - 1;
    if n > 0 {
      LiveHead(s[..n], flags[..n]);
      assert s[..n][1..] == s[1..][..n - 1] && flags[..n][1..] == flags[1..][..n - 1];
    } else {
      assert s[..n] == [] && s[1..] == [];
    }
  }

  lemma NegateTail(flags: seq<bool>)
    requires flags != []
    ensures Negate(flags)[0] == !flags[0] && Negate(flags)[1..] == Negate(flags[1..])
  {
    forall i | 0 <= i < |flags| - 1
      ensures Negate(flags)[1..][i] == Negate(flags[1..])[i]
    {
    }
  }

  // ----- The loops -----

  /** Everyone in s leaves with outcome o. */
  function All(s: seq<Request>, o: Outcome): seq<Retired> { seq(|s|, i requires 0 <= i < |s| => (s[i], o)) }

  lemma AllHead(r: Request, s: seq<Request>, o: Outcome)
    ensures All([r] + s, o) == [(r, o)] + All(s, o)
  {
  }

  lemma {:induction false} SpokenAll(s: seq<Request>, o: Outcome)
    ensures o != Skipped ==> Spoken(All(s, o)) == All(s, o) && Skips(All(s, o)) == []
  {
    if s != [] {
      assert All(s, o)[1..] == All(s[1..], o) && All(s, o) == [(s[0], o)] + All(s[1..], o);
      SpokenAll(s[1..], o);
    }
  }

  lemma {:induction false} ErrorsAlone(rest: seq<Request>, o: Outcome, again: WorkerPc)
    returns (choices: seq<WorkerChoice>)
    requires again.Level?
    ensures Handle(Errors(rest, o), choices, again) == (again, All(rest, o))
  {
    hide Handle;
    if rest == [] {
      choices := [Accept];
      Final(Errors(rest, o), Accept, again);
      assert All(rest, o) == [];
    } else {
      var more := ErrorsAlone(rest[1..], o, again);
      choices := [Accept] + more;
      Next(Errors(rest, o), Accept, more, again);
      assert All(rest, o) == [(rest[0], o)] + All(rest[1..], o);
    }
  }

  lemma {:induction false} FilterAlone(rest: seq<Request>, live: seq<Request>, done: seq<bool>, again: WorkerPc)
    returns (choices: seq<WorkerChoice>)
    requires |done| == |rest|
    ensures Handle(Filter(rest, live), choices, again)
            == (Filter([], live + Live(rest, done)), All(Live(rest, Negate(done)), Cancelled))
  {
    if rest == [] {
      choices := [];
      assert live + [] == live && Negate(done) == [] && All([], Cancelled) == [];
    } else {
      hide Live, Handle;
      NegateTail(done);
      LiveHead(rest, done);
      LiveHead(rest, Negate(done));
      var r, kept, lost := rest[0], Live(rest[1..], done[1..]), Live(rest[1..], Negate(done[1..]));
      var live' := if done[0] then live else live + [r];
      var ch := if done[0] then Drop else Accept;
      var more := FilterAlone(rest[1..], live', done[1..], again);
      choices := [ch] + more;
      Next(Filter(rest, live), ch, more, again);
      hide ProcessNext;
      AllHead(r, lost, Cancelled);
      FilterHead(live, r, kept, lost, done[0]);
    }
  }

  lemma FilterHead(live: seq<Request>, r: Request, kept: seq<Request>, lost: seq<Request>, dead: bool)
    ensures live + ((if dead then [] else [r]) + kept) == (if dead then live else live + [r]) + kept
    ensures (if dead then [r] else []) + lost == if dead then [r] + lost else lost
    ensures (if dead then [(r, Cancelled)] else []) + All(lost, Cancelled)
            == if dead then [(r, Cancelled)] + All(lost, Cancelled) else All(lost, Cancelled)
  {
  }

  lemma {:induction false} ResultsAlone(rest: seq<Request>, gone: seq<bool>, again: WorkerPc)
    returns (choices: seq<WorkerChoice>, outs: seq<Retired>)
    requires |gone| == |rest| && again.Level?
    ensures Handle(Results(rest), choices, again) == (again, outs)
    ensures Spoken(outs) == All(Live(rest, gone), Pipeline.Answered) && Skips(outs) == Live(rest, Negate(gone))
  {
    hide Handle;
    if rest == [] {
      choices, outs := [Accept], [];
      Final(Results(rest), Accept, again);
      assert All([], Pipeline.Answered) == [] && Negate(gone) == [];
    } else {
      var more, later := ResultsAlone(rest[1..], gone[1..], again);
      var ch := if gone[0] then Drop else Accept;
      var first := (rest[0], if gone[0] then Skipped else Pipeline.Answered);
      choices, outs := [ch] + more, [first] + later;
      Next(Results(rest), ch, more, again);
      hide ProcessNext, Live, Spoken, Skips;
      ResultsHead(rest, gone, first, later);
    }
  }

  lemma ResultsHead(rest: seq<Request>, gone: seq<bool>, first: Retired, later: seq<Retired>)
    requires |gone| == |rest| > 0 && first == (rest[0], if gone[0] then Skipped else Pipeline.Answered)
    requires Spoken(later) == All(Live(rest[1..], gone[1..]), Pipeline.Answered)
    requires Skips(later) == Live(rest[1..], Negate(gone[1..]))
    ensures Spoken([first] + later) == All(Live(rest, gone), Pipeline.Answered)
    ensures Skips([first] + later) == Live(rest, Negate(gone))
  {
    NegateTail(gone);
    LiveHead(rest, gone);
    LiveHead(rest, Negate(gone));
    SpokenHead(first, later);
    hide Live, Spoken, Skips;
    var kept := Live(rest[1..], gone[1..]);
    AllHead(rest[0], kept, Pipeline.Answered);
    if gone[0] { assert [] + kept == kept; }
    else {
      var quiet := Live(rest[1..], Negate(gone)[1..]);
      assert [] + quiet == quiet;
    }
  }

  // ----- Process -----

  lemma SentAllFail(s: seq<Request>, error: Failure, o: Outcome)
    requires forall r: Request :: OutcomeOf(Delivery(r, Reply(r.id, None, Some(error)))) == o
    ensures Sent(AllFail(s, error)) == All(s, o)
  {
  }

  lemma {:induction false} SentFanOut(s: seq<Request>, results: seq<Option<string>>, gone: seq<bool>, n: nat)
    requires n <= |s| == |gone|
    ensures Sent(FanOut(s, results, gone, n)) == All(Live(s[..n], gone[..n]), Pipeline.Answered)
  {
    if n > 0 {
      SentFanOut(s, results, gone, n - 1);
      assert s[..n][..n - 1] == s[..n - 1] && gone[..n][..n - 1] == gone[..n - 1];
      var kept := Live(s[..n - 1], gone[..n - 1]);
      var last := if gone[n - 1] then [] else [s[n - 1]];
      assert Live(s[..n], gone[..n]) == kept + last;
      assert FanOut(s, results, gone, n)
             == FanOut(s, results, gone, n - 1) + if gone[n - 1] then [] else [ReplyTo(s, results, n - 1)];
      hide Live, FanOut;
      assert All(kept + last, Pipeline.Answered) == All(kept, Pipeline.Answered) + All(last, Pipeline.Answered);
    }
  }

  lemma SentAppend(a: seq<Delivery>, b: seq<Delivery>)
    ensures Sent(a + b) == Sent(a) + Sent(b)
  {
  }

  /**
   The machine, left alone, handles a batch as Process does: it retires the targets of the sends in the order of the
   sends, with the outcomes they carry, and skips the silent requests.
   */
  lemma ProcessAlone(batch: seq<Request>, w: World, done: seq<bool>, gone: seq<bool>, admitted: bool, again: WorkerPc)
    returns (choices: seq<WorkerChoice>, outs: seq<Retired>)
    requires |done| == |batch| && |gone| == |Live(batch, done)| && again.Level?
    ensures Handle(Admit(batch), choices, again) == (again, outs)
    ensures Spoken(outs) == Sent(Sends(batch, w, done, gone, admitted))
    ensures Skips(outs) == Silent(batch, w, done, gone, admitted)
  {
    hide Handle, Live;
    if w.unhealthy || !admitted {
      choices, outs := Refused(batch, again);
    } else {
      var first := FilterAlone(batch, [], done, again);
      var live, dead := Live(batch, done), Live(batch, Negate(done));
      assert [] + live == live;
      var rest, later := Survivors(live, w, gone, again);
      choices, outs := [Accept] + first + rest, All(dead, Cancelled) + later;
      Admitted(batch, first, rest, again);
      SpokenAppend(All(dead, Cancelled), later);
      SpokenAll(dead, Cancelled);
      SentAllFail(dead, ContextDone, Cancelled);
      SentParts(batch, w, done, gone);
    }
  }

  lemma Refused(batch: seq<Request>, again: WorkerPc) returns (choices: seq<WorkerChoice>, outs: seq<Retired>)
    requires again.Level?
    ensures Handle(Admit(batch), choices, again) == (again, outs)
    ensures Spoken(outs) == Sent(AllFail(batch, WorkerUnavailable)) && Skips(outs) == []
  {
    var more := ErrorsAlone(batch, Unavailable, again);
    choices, outs := [Refuse] + more, All(batch, Unavailable);
    hide Handle;
    Next(Admit(batch), Refuse, more, again);
    assert [] + outs == outs;
    SpokenAll(batch, Unavailable);
    SentAllFail(batch, WorkerUnavailable, Unavailable);
  }

  /** The sends after the pre-send scan. */
  function Later(live: seq<Request>, w: World, gone: seq<bool>): seq<Delivery>
    requires |gone| == |live|
  {
    if live == [] then []
    else if !w.encodes then AllFail(live, EncodeError)
    else if !CallOf(w).0.Answer? then AllFail(live, WorkerUnavailable)
    else FanOut(live, w.upstream.results, gone, |live|)
  }

  lemma Survivors(live: seq<Request>, w: World, gone: seq<bool>, again: WorkerPc)
    returns (choices: seq<WorkerChoice>, outs: seq<Retired>)
    requires |gone| == |live| && again.Level?
    ensures Handle(Filter([], live), choices, again) == (again, outs)
    ensures Spoken(outs) == Sent(Later(live, w, gone))
    ensures Skips(outs) == if live != [] && w.encodes && CallOf(w).0.Answer? then Live(live, Negate(gone)) else []
  {
    hide Handle, Live, FanOut, Spoken, Skips;
    if live == [] {
      choices, outs := [Accept], [];
      Final(Filter([], live), Accept, again);
      assert Sent([]) == [] && Spoken([]) == [] && Skips([]) == [] by { NoneSent(); }
    } else {
      var more, ch;
      if !w.encodes {
        ch := FailEncode;
        more := ErrorsAlone(live, EncodeFailed, again);
        outs := All(live, EncodeFailed);
        SpokenAll(live, EncodeFailed);
        SentAllFail(live, EncodeError, EncodeFailed);
      } else if !CallOf(w).0.Answer? {
        ch := FailUpstream;
        more := ErrorsAlone(live, Unavailable, again);
        outs := All(live, Unavailable);
        SpokenAll(live, Unavailable);
        SentAllFail(live, WorkerUnavailable, Unavailable);
      } else {
        ch := Accept;
        more, outs := ResultsAlone(live, gone, again);
        SentFanOut(live, w.upstream.results, gone, |live|);
        assert live[..|live|] == live && gone[..|live|] == gone;
      }
      choices := [Accept, ch] + more;
      TwoSteps(live, ch, more, again);
    }
  }

  lemma NoneSent()
    ensures Sent([]) == [] && Spoken([]) == [] && Skips([]) == []
  {
  }

  /** Past the scan and the call. */
  lemma TwoSteps(live: seq<Request>, ch: WorkerChoice, more: seq<WorkerChoice>, again: WorkerPc)
    requires live != []
    ensures Handle(Filter([], live), [Accept, ch] + more, again)
            == Handle(ProcessNext(Upstream(live), ch, again).p, more, again)
  {
    hide Handle;
    assert [Accept, ch] + more == [Accept] + ([ch] + more);
    Next(Filter([], live), Accept, [ch] + more, again);
    Next(Upstream(live), ch, more, again);
    var end := Handle(ProcessNext(Upstream(live), ch, again).p, more, again);
    assert [] + ([] + end.1) == end.1;
  }

  lemma Admitted(batch: seq<Request>, first: seq<WorkerChoice>, rest: seq<WorkerChoice>, again: WorkerPc)
    ensures var scan := Handle(Filter(batch, []), first, again); var end := Handle(scan.0, rest, again);
            Handle(Admit(batch), [Accept] + first + rest, again) == (end.0, scan.1 + end.1)
  {
    hide Handle;
    assert [Accept] + first + rest == [Accept] + (first + rest);
    Next(Admit(batch), Accept, first + rest, again);
    HandleOn(Filter(batch, []), first, rest, again);
    var scan := Handle(Filter(batch, []), first, again);
    var end := Handle(scan.0, rest, again);
    assert [] + (scan.1 + end.1) == scan.1 + end.1;
  }

  lemma SentParts(batch: seq<Request>, w: World, done: seq<bool>, gone: seq<bool>)
    requires |done| == |batch| && |gone| == |Live(batch, done)| && !w.unhealthy
    ensures Sent(Sends(batch, w, done, gone, true))
            == Sent(AllFail(Live(batch, Negate(done)), ContextDone)) + Sent(Later(Live(batch, done), w, gone))
  {
    SentAppend(AllFail(Live(batch, Negate(done)), ContextDone), Later(Live(batch, done), w, gone));
    hide Sent;
  }

  // ----- And nothing else -----

  lemma FirstStep(p: WorkerPc, choices: seq<WorkerChoice>, again: WorkerPc)
    requires choices != [] && !p.Level? && !p.Exited?
    ensures var h := ProcessNext(p, choices[0], again); var rest := Handle(h.p, choices[1..], again);
            Handle(p, choices, again) == (rest.0, (if h.out.Some? then [h.out.value] else []) + rest.1)
  {
    Next(p, choices[0], choices[1..], again);
    assert choices == [choices[0]] + choices[1..];
  }

  lemma AtEnd(choices: seq<WorkerChoice>, again: WorkerPc)
    requires again.Level?
    ensures Handle(again, choices, again) == (again, [])
  {
  }

  lemma {:induction false} ErrorsOnly(rest: seq<Request>, o: Outcome, choices: seq<WorkerChoice>, again: WorkerPc)
    requires again.Level? && Handle(Errors(rest, o), choices, again).0 == again
    ensures Handle(Errors(rest, o), choices, again).1 == All(rest, o)
    decreases |choices|
  {
    assert choices != [];
    FirstStep(Errors(rest, o), choices, again);
    hide Handle;
    if rest == [] {
      AtEnd(choices[1..], again);
      assert All(rest, o) == [];
    } else {
      ErrorsOnly(rest[1..], o, choices[1..], again);
      AllHead(rest[0], rest[1..], o);
      assert rest == [rest[0]] + rest[1..];
    }
  }

  lemma {:induction false} ResultsOnly(rest: seq<Request>, choices: seq<WorkerChoice>, again: WorkerPc)
    returns (gone: seq<bool>)
    requires again.Level? && Handle(Results(rest), choices, again).0 == again
    ensures |gone| == |rest|
    ensures var outs := Handle(Results(rest), choices, again).1;
            Spoken(outs) == All(Live(rest, gone), Pipeline.Answered) && Skips(outs) == Live(rest, Negate(gone))
    decreases |choices|
  {
    assert choices != [];
    FirstStep(Results(rest), choices, again);
    hide Handle;
    if rest == [] {
      gone := [];
      AtEnd(choices[1..], again);
      assert All([], Pipeline.Answered) == [] && Negate(gone) == [];
    } else {
      var more := ResultsOnly(rest[1..], choices[1..], again);
      gone := [choices[0] == Drop] + more;
      assert gone[1..] == more;
      ResultsHead(rest, gone, (rest[0], if gone[0] then Skipped else Pipeline.Answered),
        Handle(Results(rest[1..]), choices[1..], again).1);
    }
  }

  /** The scan ends with some of its requests cancelled and the others on their way. */
  lemma {:induction false} FilterOnly(rest: seq<Request>, live: seq<Request>, choices: seq<WorkerChoice>,
                                      again: WorkerPc)
    returns (done: seq<bool>, more: seq<WorkerChoice>)
    requires again.Level? && Handle(Filter(rest, live), choices, again).0 == again
    ensures |done| == |rest|
    ensures var last := Handle(Filter([], live + Live(rest, done)), more, again);
            Handle(Filter(rest, live), choices, again) == (last.0, All(Live(rest, Negate(done)), Cancelled) + last.1)
    decreases |choices|
  {
    assert choices != [];
    if rest == [] {
      done, more := [], choices;
      assert live + [] == live && Negate(done) == [] && All([], Cancelled) == [];
      var last := Handle(Filter([], live), choices, again);
      assert [] + last.1 == last.1;
    } else {
      FirstStep(Filter(rest, live), choices, again);
      hide Handle, Live;
      var dead, r := choices[0] == Drop, rest[0];
      var live' := if dead then live else live + [r];
      var later;
      later, more := FilterOnly(rest[1..], live', choices[1..], again);
      done := [dead] + later;
      assert done[1..] == later;
      NegateTail(done);
      LiveHead(rest, done);
      LiveHead(rest, Negate(done));
      var kept, lost := Live(rest[1..], later), Live(rest[1..], Negate(later));
      AllHead(r, lost, Cancelled);
      FilterHead(live, r, kept, lost, dead);
      hide ProcessNext, All;
      Assoc(if dead then [(r, Cancelled)] else [], All(lost, Cancelled),
        Handle(Filter([], live' + kept), more, again).1);
    }
  }

  /** An upstream outcome with a watcher that sees nobody go. */
  function Calm(unhealthy: bool, encodes: bool, upstream: Upstream, survivors: nat): World {
    World(unhealthy, 0, encodes, upstream, 0, seq(survivors, _ => None), seq(survivors, _ => Stop(0)))
  }

  lemma CalmCall(encodes: bool, upstream: Upstream, survivors: nat)
    ensures var w := Calm(false, encodes, upstream, survivors);
            CallOf(w).0 == upstream && Observes(w.doneAt, w.waits, w.end) && |w.waits| == survivors
            && !w.unhealthy && w.encodes == encodes && w.upstream == upstream
  {
    var w := Calm(false, encodes, upstream, survivors);
    if survivors > 0 { assert !w.waits[0].RequestDone?; }
  }

  /** These are the outcomes of the survivors in that environment. */
  ghost predicate LaterIs(outs: seq<Retired>, live: seq<Request>, w: World, gone: seq<bool>) {
    && |gone| == |live| && !w.unhealthy && |w.waits| == |live| && Observes(w.doneAt, w.waits, w.end)
    && Spoken(outs) == Sent(Later(live, w, gone))
    && Skips(outs) == if live != [] && w.encodes && CallOf(w).0.Answer? then Live(live, Negate(gone)) else []
  }

  lemma NoneOnly() returns (w: World)
    ensures LaterIs([], [], w, [])
  {
    w := Calm(false, true, TransportError, 0);
    CalmCall(true, TransportError, 0);
    NoneSent();
  }

  lemma FailedOnly(live: seq<Request>, encodes: bool) returns (w: World, gone: seq<bool>)
    requires live != []
    ensures LaterIs(All(live, if encodes then Unavailable else EncodeFailed), live, w, gone)
  {
    var o := if encodes then Unavailable else EncodeFailed;
    gone := seq(|live|, _ => false);
    w := Calm(false, encodes, TransportError, |live|);
    CalmCall(encodes, TransportError, |live|);
    hide Calm, Observes, CallOf, Live, FanOut;
    SpokenAll(live, o);
    hide Spoken, Skips;
    SentAllFail(live, if encodes then WorkerUnavailable else EncodeError, o);
    hide Sent, All, AllFail;
  }

  lemma AnsweredOnly(live: seq<Request>, outs: seq<Retired>, gone: seq<bool>) returns (w: World)
    requires live != [] && |gone| == |live|
    requires Spoken(outs) == All(Live(live, gone), Pipeline.Answered) && Skips(outs) == Live(live, Negate(gone))
    ensures LaterIs(outs, live, w, gone)
  {
    w := Calm(false, true, Answer([]), |live|);
    CalmCall(true, Answer([]), |live|);
    hide Calm, Observes, CallOf, Live, FanOut, Spoken, Skips;
    SentFanOut(live, [], gone, |live|);
    assert live[..|live|] == live && gone[..|live|] == gone;
    hide Sent, All;
  }

  lemma OutcomeOnly(live: seq<Request>, ch: WorkerChoice, end: seq<WorkerChoice>, again: WorkerPc)
    returns (w: World, gone: seq<bool>)
    requires live != [] && again.Level? && Handle(ProcessNext(Upstream(live), ch, again).p, end, again).0 == again
    ensures LaterIs(Handle(ProcessNext(Upstream(live), ch, again).p, end, again).1, live, w, gone)
  {
    hide Handle, LaterIs;
    if ch == FailEncode || ch == FailUpstream {
      ErrorsOnly(live, if ch == FailEncode then EncodeFailed else Unavailable, end, again);
      w, gone := FailedOnly(live, ch != FailEncode);
    } else {
      gone := ResultsOnly(live, end, again);
      w := AnsweredOnly(live, Handle(Results(live), end, again).1, gone);
    }
  }

  lemma SurvivorsOnly(live: seq<Request>, choices: seq<WorkerChoice>, again: WorkerPc)
    returns (w: World, gone: seq<bool>)
    requires again.Level? && Handle(Filter([], live), choices, again).0 == again
    ensures LaterIs(Handle(Filter([], live), choices, again).1, live, w, gone)
  {
    assert choices != [];
    FirstStep(Filter([], live), choices, again);
    var more := choices[1..];
    if live == [] {
      hide Handle;
      AtEnd(more, again);
      w := NoneOnly();
      gone := [];
    } else {
      assert more != [];
      FirstStep(Upstream(live), more, again);
      hide Handle, LaterIs;
      w, gone := OutcomeOnly(live, more[0], more[1..], again);
      var outs := Handle(ProcessNext(Upstream(live), more[0], again).p, more[1..], again).1;
      assert [] + ([] + outs) == outs;
    }
  }

  lemma RefusedOnly(batch: seq<Request>, choices: seq<WorkerChoice>, again: WorkerPc)
    returns (w: World, done: seq<bool>, gone: seq<bool>)
    requires again.Level? && Handle(Errors(batch, Unavailable), choices, again).0 == again
    ensures Fits(batch, w, done, gone)
    ensures var outs := Handle(Errors(batch, Unavailable), choices, again).1;
            Spoken(outs) == Sent(Sends(batch, w, done, gone, false))
            && Skips(outs) == Silent(batch, w, done, gone, false)
  {
    hide Handle, Live;
    ErrorsOnly(batch, Unavailable, choices, again);
    SpokenAll(batch, Unavailable);
    SentAllFail(batch, WorkerUnavailable, Unavailable);
    done := seq(|batch|, _ => false);
    gone := seq(|Live(batch, done)|, _ => false);
    w := Calm(false, true, TransportError, |gone|);
    CalmCall(true, TransportError, |gone|);
    hide Calm, Spoken, Skips, Sent, All, AllFail, Observes;
  }

  lemma AdmittedOnly(batch: seq<Request>, choices: seq<WorkerChoice>, again: WorkerPc)
    returns (w: World, done: seq<bool>, gone: seq<bool>)
    requires again.Level? && Handle(Filter(batch, []), choices, again).0 == again
    ensures Fits(batch, w, done, gone)
    ensures var outs := Handle(Filter(batch, []), choices, again).1;
            Spoken(outs) == Sent(Sends(batch, w, done, gone, true)) && Skips(outs) == Silent(batch, w, done, gone, true)
  {
    hide Handle, Live, Spoken, Skips, Sent, All, AllFail, Observes, CallOf;
    var rest;
    done, rest := FilterOnly(batch, [], choices, again);
    var live, dead := Live(batch, done), Live(batch, Negate(done));
    assert [] + live == live;
    w, gone := SurvivorsOnly(live, rest, again);
    var later := Handle(Filter([], live), rest, again).1;
    SpokenAppend(All(dead, Cancelled), later);
    SpokenAll(dead, Cancelled);
    SentAllFail(dead, ContextDone, Cancelled);
    hide Later, Sends;
    SentParts(batch, w, done, gone);
    assert [] + Skips(later) == Skips(later);
  }

  /**
   Whatever choices bring the machine's worker to the end of a batch, Process does the same in some environment: the
   same sends in the same order, and the same silent requests.
   */
  lemma ProcessOnly(batch: seq<Request>, choices: seq<WorkerChoice>, again: WorkerPc)
    returns (w: World, done: seq<bool>, gone: seq<bool>, admitted: bool)
    requires again.Level? && Handle(Admit(batch), choices, again).0 == again
    ensures Fits(batch, w, done, gone)
    ensures var outs := Handle(Admit(batch), choices, again).1;
            Spoken(outs) == Sent(Sends(batch, w, done, gone, admitted))
            && Skips(outs) == Silent(batch, w, done, gone, admitted)
  {
    assert choices != [];
    FirstStep(Admit(batch), choices, again);
    var more := choices[1..];
    hide Handle, Live, Spoken, Skips, Sent, Sends, Silent, Fits;
    admitted := choices[0] != Refuse;
    if admitted {
      w, done, gone := AdmittedOnly(batch, more, again);
      var outs := Handle(Filter(batch, []), more, again).1;
      assert [] + outs == outs;
    } else {
      w, done, gone := RefusedOnly(batch, more, again);
      var outs := Handle(Errors(batch, Unavailable), more, again).1;
      assert [] + outs == outs;
    }
  }
}
