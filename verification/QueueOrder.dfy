/** The order in which a sender takes up what it was asked for. */
module QueueOrder {
  import opened Util
  import opened Negotiation

  /** The call is not ignored: only the removal of an unknown publication is. */
  predicate Heard(s: SenderState, r: Request)
  {
    r.Remove? ==> r.publication in s.publications
  }

  /** What a step puts into the queue, takes out of it, and takes up, from the queue or at once. */
  function QueuedBy(w: World, step: Step): seq<Request>
  {
    if step.Call? && Heard(w.sender, step.request) && Busy(w.sender) then [step.request] else []
  }

  function DequeuedBy(w: World, step: Step): seq<Request>
  {
    if step.Finish? && w.sender.pending != [] then [w.sender.pending[0]] else []
  }

  function TakenBy(w: World, step: Step): seq<Request>
  {
    if step.Call? && Heard(w.sender, step.request) && !Busy(w.sender) then [step.request]
    else DequeuedBy(w, step)
  }

  function Queued(w: World, steps: seq<Step>): seq<Request>
    decreases |steps|
  {
    if steps == [] || !Enabled(w, steps[0]) then [] else QueuedBy(w, steps[0]) + Queued(Next(w, steps[0]), steps[1..])
  }

  function Dequeued(w: World, steps: seq<Step>): seq<Request>
    decreases |steps|
  {
    if steps == [] || !Enabled(w, steps[0]) then []
    else DequeuedBy(w, steps[0]) + Dequeued(Next(w, steps[0]), steps[1..])
  }

  function Taken(w: World, steps: seq<Step>): seq<Request>
    decreases |steps|
  {
    if steps == [] || !Enabled(w, steps[0]) then [] else TakenBy(w, steps[0]) + Taken(Next(w, steps[0]), steps[1..])
  }

  lemma ResumeQueue(s: SenderState)
    requires s.signaling == Stable
    ensures Resume(s).pending == if s.pending == [] then [] else s.pending[1..]
    ensures Resume(s).requested == s.requested
  {
  }

  lemma AskQueue(s: SenderState, r: Request)
    ensures Ask(s, r).pending == if Heard(s, r) && Busy(s) then s.pending + [r] else s.pending
    ensures Ask(s, r).requested == if Heard(s, r) then s.requested + [r] else s.requested
  {
  }

  lemma StepQueue(w: World, step: Step)
    requires Exclusive(w) && Enabled(w, step)
    ensures w.sender.pending + QueuedBy(w, step) == DequeuedBy(w, step) + Next(w, step).sender.pending
    ensures Next(w, step).sender.requested == w.sender.requested
              + (if step.Call? && Heard(w.sender, step.request) then [step.request] else [])
  {
    match step
    case Call(r) => AskQueue(w.sender, r);
    case Finish => ResumeQueue(w.sender);
    case _ =>
  }

  /**
   The queue is first-in first-out in every run, deferred removals and data channels included: what
   was taken out, and what is still in it, is what was in it or was put in, in that order.
   */
  lemma {:induction false} FirstInFirstOut(w: World, steps: seq<Step>, w': World)
    requires Exclusive(w) && Leads(w, steps, w')
    ensures w.sender.pending + Queued(w, steps) == Dequeued(w, steps) + w'.sender.pending
    decreases |steps|
  {
    if steps != [] {
      var w1, rest := Next(w, steps[0]), steps[1..];
      StepExclusive(w, steps[0]);
      StepQueue(w, steps[0]);
      FirstInFirstOut(w1, rest, w');
      Chained(w.sender.pending, QueuedBy(w, steps[0]), Queued(w1, rest), DequeuedBy(w, steps[0]), w1.sender.pending,
              Dequeued(w1, rest), w'.sender.pending);
    }
  }

  lemma Chained(p: seq<Request>, q1: seq<Request>, q2: seq<Request>, d1: seq<Request>, p1: seq<Request>,
                d2: seq<Request>, p2: seq<Request>)
    requires p + q1 == d1 + p1 && p1 + q2 == d2 + p2
    ensures p + (q1 + q2) == (d1 + d2) + p2
  {
    assert p + (q1 + q2) == (p + q1) + q2;
    assert (d1 + p1) + q2 == d1 + (p1 + q2);
    assert d1 + (d2 + p2) == (d1 + d2) + p2;
  }

  /** The call starts a negotiation ahead of other requests that a stalled queue holds. */
  predicate Overtakes(w: World, step: Step)
  {
    && step.Call? && Heard(w.sender, step.request) && !Busy(w.sender)
    && [step.request] + w.sender.pending != w.sender.pending + [step.request]
  }

  /** What was taken up, and then what is queued, is what was requested. */
  predicate InOrderSoFar(w: World, taken: seq<Request>)
  {
    taken + w.sender.pending == w.sender.requested
  }

  /** A step keeps the requests in order, exactly if it is not a call that overtakes a stalled queue. */
  lemma OrderKeptIff(w: World, step: Step, taken: seq<Request>)
    requires Exclusive(w) && Enabled(w, step) && InOrderSoFar(w, taken)
    ensures InOrderSoFar(Next(w, step), taken + TakenBy(w, step)) <==> !Overtakes(w, step)
  {
    if step.Call? {
      AskQueue(w.sender, step.request);
      CallOrderIff(w, step.request, taken);
    } else {
      StepQueue(w, step);
      var p' := Next(w, step).sender.pending;
      assert w.sender.pending + [] == w.sender.pending && w.sender.requested + [] == w.sender.requested;
      Regrouped(taken, DequeuedBy(w, step), p');
    }
  }

  lemma CallOrderIff(w: World, r: Request, taken: seq<Request>)
    requires InOrderSoFar(w, taken)
    ensures InOrderSoFar(Next(w, Call(r)), taken + TakenBy(w, Call(r))) <==> !Overtakes(w, Call(r))
  {
    AskQueue(w.sender, r);
    var p := w.sender.pending;
    if !Heard(w.sender, r) {
      assert taken + [] == taken;
    } else if Busy(w.sender) {
      assert taken + [] == taken;
      Regrouped(taken, p, [r]);
    } else {
      Inserted(taken, p, r);
    }
  }

  lemma Inserted(taken: seq<Request>, p: seq<Request>, r: Request)
    ensures taken + [r] + p == taken + p + [r] <==> [r] + p == p + [r]
  {
    assert taken + [r] + p == taken + ([r] + p);
    assert taken + p + [r] == taken + (p + [r]);
    assert [r] + p == (taken + ([r] + p))[|taken|..];
    assert p + [r] == (taken + (p + [r]))[|taken|..];
  }

  ghost predicate EverOvertakes(w: World, steps: seq<Step>)
    decreases |steps|
  {
    steps != [] && Enabled(w, steps[0])
    && (Overtakes(w, steps[0]) || EverOvertakes(Next(w, steps[0]), steps[1..]))
  }

  lemma {:induction false} RunInOrder(w: World, steps: seq<Step>, w': World, taken: seq<Request>)
    requires Exclusive(w) && InOrderSoFar(w, taken) && Leads(w, steps, w') && !EverOvertakes(w, steps)
    ensures InOrderSoFar(w', taken + Taken(w, steps))
    decreases |steps|
  {
    if steps == [] {
      assert taken + [] == taken;
    } else {
      StepExclusive(w, steps[0]);
      OrderKeptIff(w, steps[0], taken);
      RunInOrder(Next(w, steps[0]), steps[1..], w', taken + TakenBy(w, steps[0]));
      Regrouped(taken, TakenBy(w, steps[0]), Taken(Next(w, steps[0]), steps[1..]));
    }
  }

  lemma Regrouped(xs: seq<Request>, ys: seq<Request>, zs: seq<Request>)
    ensures xs + ys + zs == xs + (ys + zs)
  {
  }

  /** In every run in which no call overtakes a stalled queue, requests are taken up in the order they were made. */
  lemma TakenInOrder(steps: seq<Step>, w: World)
    requires Leads(INITIAL, steps, w) && !EverOvertakes(INITIAL, steps)
    ensures Taken(INITIAL, steps) + w.sender.pending == w.sender.requested
  {
    RunInOrder(INITIAL, steps, w, []);
    assert [] + Taken(INITIAL, steps) == Taken(INITIAL, steps);
  }

  /** From a stalled queue the next call overtakes what waits. */
  lemma StalledIsOvertaken(w: World, r: Request, x: Request)
    requires Exclusive(w) && Tokens(w) == 0 && !w.receiver.refused && w.sender.pending == [r]
    requires Heard(w.sender, x) && x != r
    ensures Overtakes(w, Call(x)) && Next(w, Call(x)).sender.pending == [r]
    ensures Next(w, Call(x)).sender.work.Preparing?
    ensures Next(w, Call(x)).sender.started == w.sender.started + [x]
  {
    assert ([x] + [r])[0] != ([r] + [x])[0];
  }

  lemma TwoAdded(w: World, q: Publication, r: Publication) returns (w': World)
    requires Tame(w) && Tokens(w) == 0
    requires q.kind.Media? && q !in w.sender.tracks && r.kind.Media? && r !in w.sender.tracks && q != r
    ensures Leads(w, [Call(Add(q)), Call(Add(r))], w') && Tame(w')
    ensures w'.sender.work.Preparing? && w'.sender.pending == [Add(r)]
    ensures w'.sender.started == w.sender.started + [Add(q)] && w'.sender.publications == w.sender.publications + {q}
  {
    var w1 := Next(w, Call(Add(q)));
    CallTame(w, Add(q));
    CallTame(w1, Add(r));
    LeadsTwo(w, Call(Add(q)), Call(Add(r)));
    w' := Next(w1, Call(Add(r)));
  }

  lemma AdditionQueued(w: World, p: Publication, q: Publication, r: Publication) returns (w': World)
    requires Tame(w) && Tokens(w) == 0 && p in w.sender.publications
    requires q.kind.Media? && q !in w.sender.tracks && r.kind.Media? && r !in w.sender.tracks && q != r
    ensures Leads(w, [Call(Add(q)), Call(Add(r)), Call(Remove(p))], w')
    ensures Exclusive(w') && Agreed(w') && w'.sender.lines <= Offered(w'.sender).Values
    ensures w'.sender.work.Preparing? && w'.sender.pending == [Add(r), Remove(p)]
    ensures w'.sender.started == w.sender.started + [Add(q)]
  {
    var w2 := TwoAdded(w, q, r);
    LeadsNext(w, [Call(Add(q)), Call(Add(r))], w2, Call(Remove(p)));
    assert [Call(Add(q)), Call(Add(r))] + [Call(Remove(p))] == [Call(Add(q)), Call(Add(r)), Call(Remove(p))];
    w' := RemovalDeferred(w2, p);
  }

  lemma RemovalDeferred(w: World, p: Publication) returns (w': World)
    requires Tame(w) && w.sender.work.Preparing? && p in w.sender.publications
    ensures w' == Next(w, Call(Remove(p))) && Exclusive(w') && Agreed(w')
    ensures w'.sender.lines <= Offered(w'.sender).Values
    ensures w'.sender.work == w.sender.work && w'.sender.started == w.sender.started
    ensures w'.sender.pending == w.sender.pending + [Remove(p)]
  {
    w' := Next(w, Call(Remove(p)));
    StepExclusive(w, Call(Remove(p)));
    StepAgreed(w, Call(Remove(p)));
    RefusedIffLined(w.sender);
  }

  /** A removal deferred behind a queued addition: the addition's negotiation starts first. */
  lemma QueuedAdditionFirst(w: World, p: Publication, q: Publication, r: Publication)
      returns (steps: seq<Step>, w': World)
    requires Tame(w) && Tokens(w) == 0 && p in w.sender.publications
    requires q.kind.Media? && q !in w.sender.tracks && r.kind.Media? && r !in w.sender.tracks && q != r
    ensures Leads(w, [Call(Add(q)), Call(Add(r)), Call(Remove(p))] + steps, w') && !w'.receiver.refused
    ensures w'.sender.started == w.sender.started + [Add(q), Add(r)]
    ensures w'.sender.work.Preparing? && w'.sender.work.op.Produce? && w'.sender.work.op.publication == r
    ensures w'.sender.pending == [Remove(p)]
  {
    var w1 := AdditionQueued(w, p, q, r);
    assert w1.sender.pending[1..] == [Remove(p)];
    steps, w' := Round(w1);
    LeadsConcat(w, [Call(Add(q)), Call(Add(r)), Call(Remove(p))], w1, steps, w');
    ResumeStarts(w1.sender.(signaling := Stable, work := Answered, answering := true), r, [Remove(p)]);
  }

  lemma ResumeStarts(s: SenderState, r: Publication, rest: seq<Request>)
    requires s.signaling == Stable && s.pending == [Add(r)] + rest
    ensures var s' := Resume(s);
            && s'.pending == rest && s'.started == s.started + [Add(r)]
            && s'.work.Preparing? && s'.work.op.Produce? && s'.work.op.publication == r
  {
    assert s.pending[1..] == rest;
  }
  // ---- What the requests amount to ---------------------------------------------------------

  /** What is published after some requests were carried out one after the other. */
  function Published(requests: seq<Request>): set<Publication>
    decreases |requests|
  {
    if requests == [] then {} else
    var before := Published(requests[..|requests| - 1]);
    match requests[|requests| - 1]
    case Add(p) => before + {p}
    case Remove(p) => before - {p}
  }

  lemma PublishedSnoc(requests: seq<Request>, r: Request)
    ensures Published(requests + [r]) ==
            if r.Add? then Published(requests) + {r.publication} else Published(requests) - {r.publication}
  {
    assert (requests + [r])[..|requests|] == requests;
  }

  lemma CallPublishes(w: World, r: Request)
    requires Tame(w) && TameStep(w, Call(r)) && w.sender.publications == Published(w.sender.started)
    ensures var s := Next(w, Call(r)).sender; s.publications == Published(s.started)
  {
    PublishedSnoc(w.sender.started, r);
  }

  lemma FinishPublishes(w: World)
    requires Tame(w) && Enabled(w, Finish) && w.sender.publications == Published(w.sender.started)
    ensures var s := Next(w, Finish).sender; s.publications == Published(s.started)
  {
    if w.sender.pending != [] {
      assert w.sender.pending[0] in w.sender.pending;
      PublishedSnoc(w.sender.started, w.sender.pending[0]);
    }
  }

  lemma {:induction false} RunPublishes(w: World, steps: seq<Step>, w': World)
    requires Tame(w) && TameRun(w, steps) && Leads(w, steps, w')
    requires w.sender.publications == Published(w.sender.started)
    ensures w'.sender.publications == Published(w'.sender.started)
    decreases |steps|
  {
    if steps != [] {
      match steps[0] {
        case Call(r) => CallPublishes(w, r);
        case Finish => FinishPublishes(w);
        case _ =>
      }
      StepTame(w, steps[0]);
      RunPublishes(Next(w, steps[0]), steps[1..], w');
    }
  }

  /** In a quiet state of a tame run both sides have what carrying out all requests in order leaves. */
  lemma RequestsAreServed(w: World, steps: seq<Step>)
    requires TameRun(INITIAL, steps) && Leads(INITIAL, steps, w) && Tokens(w) == 0
    ensures w.receiver.info.Keys == w.sender.publications == Published(w.sender.requested)
  {
    InitialTame();
    RunPublishes(INITIAL, steps, w);
    QuietMeansConverged(w, steps);
  }
}
