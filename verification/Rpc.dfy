/**
 `RPC.request`: requests in flight when the connection breaks are queued and sent once more after
 a reconnection.
 */
module Rpc {
  import opened Util

  type RequestId = string

  datatype Outcome = Response(messageId: string) | TimedOut | FatalError | ClosedWhileRequesting | AlreadyClosed

  datatype Phase =
    | Direct               // sent; a disconnection would queue it
    | Requeued             // sent once, then queued by a disconnection
    | Queued               // queued at once, during a reconnection
    | Done(outcome: Outcome, deferred: bool)  // `deferred` if it was queued at once

  datatype State = State(
    closed: bool,
    reconnecting: bool,
    reconnectCount: nat,
    pending: seq<RequestId>,   // `_pendingRequests`
    direct: seq<RequestId>,    // the requests listening to `onDisconnected`, in order
    phases: map<RequestId, Phase>,
    sends: seq<RequestId>)     // what was handed to `_send`

  const MAX_RETRY: nat := 8

  const INITIAL: State := State(false, false, 0, [], [], map[], [])

  datatype Step =
    | Request(id: RequestId)   // ids are fresh
    | Disconnected
    | AttemptFails
    | Reconnected              // `connect` succeeds and the pending requests are resolved
    | ResubscribeFails
    | Message(id: string)
    | Timeout(id: RequestId)
    | CloseRpc

  predicate Waiting(s: State, id: RequestId)
  {
    id in s.phases && !s.phases[id].Done?
  }

  /** Every waiting request in `ids` is done. */
  function Complete(s: State, ids: set<RequestId>, outcome: Outcome): State
  {
    s.(phases := map id | id in s.phases :: if id in ids then Completed(s.phases[id], outcome) else s.phases[id])
  }

  function Completed(phase: Phase, outcome: Outcome): Phase
  {
    if phase.Done? then phase else Done(outcome, phase.Queued?)
  }

  /** The request was made during a reconnection. */
  predicate IsDeferred(phase: Phase)
  {
    phase.Queued? || (phase.Done? && phase.deferred)
  }

  /** `close`: the requests sent directly fail; one queued at once is left to its timeout. */
  function CloseStep(s: State): State
  {
    if s.closed then s
    else Complete(s, (set id | id in s.phases && !s.phases[id].Queued?), ClosedWhileRequesting).(closed := true)
  }

  /** The start of `_reconnect`, which gives up after `MAX_RETRY` attempts. */
  function BeginReconnect(s: State): State
  {
    if s.reconnectCount >= MAX_RETRY then CloseStep(Complete(s, s.phases.Keys, FatalError))
    else s.(reconnecting := true, reconnectCount := s.reconnectCount + 1)
  }

  /** The requests of a list that are still in their first phase. */
  function StillDirect(ids: seq<RequestId>, phases: map<RequestId, Phase>): seq<RequestId>
  {
    if ids == [] then []
    else if ids[0] in phases && phases[ids[0]].Direct? then [ids[0]] + StillDirect(ids[1..], phases)
    else StillDirect(ids[1..], phases)
  }

  function DisconnectStep(s: State): State
  {
    if s.closed then s else
    var s := if s.reconnecting then s else BeginReconnect(s);
    s.(pending := s.pending + StillDirect(s.direct, s.phases),
       direct := [],
       phases := map id | id in s.phases :: if s.phases[id].Direct? && id in s.direct then Requeued else s.phases[id])
  }

  function Next(s: State, step: Step): State
  {
    match step
    case Request(id) =>
      if id in s.phases then s
      else if s.closed then s.(phases := s.phases[id := Done(AlreadyClosed, false)])
      else if s.reconnecting then s.(pending := s.pending + [id], phases := s.phases[id := Queued])
      else s.(sends := s.sends + [id], direct := s.direct + [id], phases := s.phases[id := Direct])
    case Disconnected => DisconnectStep(s)
    case AttemptFails => if s.reconnecting then BeginReconnect(s) else s
    case Reconnected =>
      s.(reconnecting := false, reconnectCount := 0, sends := s.sends + s.pending, pending := [])
    case ResubscribeFails => if s.closed then s else BeginReconnect(s)
    case Message(id) => if s.closed then s else Complete(s, {id}, Response(id))
    case Timeout(id) => Complete(s, {id}, TimedOut)
    case CloseRpc => CloseStep(s)
  }

  function Run(s: State, steps: seq<Step>): State
    decreases |steps|
  {
    if steps == [] then s else Next(Run(s, steps[..|steps| - 1]), steps[|steps| - 1])
  }

  // ---- Invariant --------------------------------------------------------------------------

  /** How often a request has been sent and is queued, by its phase. */
  ghost predicate Accounted(s: State, id: RequestId)
  {
    var (sent, queued, listening) := (Count(s.sends, id), Count(s.pending, id), Count(s.direct, id));
    && queued <= 1 && listening <= 1
    && if id !in s.phases then sent == 0 && queued == 0 && listening == 0
       else match s.phases[id]
            case Direct => sent == 1 && queued == 0 && listening == 1
            case Requeued => sent + queued == 2 && listening == 0
            case Queued => sent + queued == 1 && listening == 0
            case Done(_, deferred) =>
              if deferred then sent + queued == 1 && listening == 0
              else sent + queued <= 2 && (queued == 1 ==> listening == 0) && (listening == 1 ==> sent == 1)
  }

  ghost predicate Inv(s: State)
  {
    && (forall id :: Accounted(s, id))
    && (forall id :: id in s.phases && s.phases[id].Done? && s.phases[id].outcome.Response? ==>
          s.phases[id].outcome.messageId == id)
    && s.reconnectCount <= MAX_RETRY
  }

  lemma CompleteInv(s: State, ids: set<RequestId>, outcome: Outcome)
    requires Inv(s)
    requires outcome.Response? ==> ids <= {outcome.messageId}
    ensures Inv(Complete(s, ids, outcome))
  {
    var t := Complete(s, ids, outcome);
    forall id
      ensures Accounted(t, id)
    {
      assert Accounted(s, id);
    }
  }

  lemma BeginReconnectInv(s: State)
    requires Inv(s)
    ensures Inv(BeginReconnect(s))
  {
    if s.reconnectCount >= MAX_RETRY {
      CompleteInv(s, s.phases.Keys, FatalError);
      CloseInv(Complete(s, s.phases.Keys, FatalError));
    } else {
      forall id
        ensures Accounted(BeginReconnect(s), id)
      {
        assert Accounted(s, id);
      }
    }
  }

  lemma CloseInv(s: State)
    requires Inv(s)
    ensures Inv(CloseStep(s))
  {
    if !s.closed {
      var ids := set id | id in s.phases && !s.phases[id].Queued?;
      CompleteInv(s, ids, ClosedWhileRequesting);
      forall id
        ensures Accounted(CloseStep(s), id)
      {
        assert Accounted(Complete(s, ids, ClosedWhileRequesting), id);
      }
    }
  }

  lemma {:induction false} CountStillDirect(ids: seq<RequestId>, phases: map<RequestId, Phase>, id: RequestId)
    ensures Count(StillDirect(ids, phases), id)
         == if id in phases && phases[id].Direct? then Count(ids, id) else 0
  {
    if ids != [] {
      CountStillDirect(ids[1..], phases, id);
      if ids[0] in phases && phases[ids[0]].Direct? {
        assert StillDirect(ids, phases)[1..] == StillDirect(ids[1..], phases);
      }
    }
  }

  lemma RequeueInv(s: State)
    requires Inv(s)
    ensures Inv(s.(pending := s.pending + StillDirect(s.direct, s.phases),
                   direct := [],
                   phases := map id | id in s.phases ::
                               if s.phases[id].Direct? && id in s.direct then Requeued else s.phases[id]))
  {
    var t := s.(pending := s.pending + StillDirect(s.direct, s.phases),
                direct := [],
                phases := map id | id in s.phases ::
                            if s.phases[id].Direct? && id in s.direct then Requeued else s.phases[id]);
    forall id
      ensures Accounted(t, id)
    {
      assert Accounted(s, id);
      CountConcat(s.pending, StillDirect(s.direct, s.phases), id);
      CountStillDirect(s.direct, s.phases, id);
      CountPositive(s.direct, id);
    }
  }

  lemma RequestInv(s: State, r: RequestId)
    requires Inv(s)
    ensures Inv(Next(s, Request(r)))
  {
    forall id
      ensures Accounted(Next(s, Request(r)), id)
    {
      assert Accounted(s, id);
      CountConcat(s.pending, [r], id);
      CountConcat(s.sends, [r], id);
      CountConcat(s.direct, [r], id);
    }
  }

  lemma ReconnectedInv(s: State)
    requires Inv(s)
    ensures Inv(Next(s, Reconnected))
  {
    forall id
      ensures Accounted(Next(s, Reconnected), id)
    {
      assert Accounted(s, id);
      CountConcat(s.sends, s.pending, id);
    }
  }

  lemma StepInv(s: State, step: Step)
    requires Inv(s)
    ensures Inv(Next(s, step))
  {
    match step
    case Request(id) => RequestInv(s, id);
    case Disconnected =>
      if !s.closed {
        if !s.reconnecting {
          BeginReconnectInv(s);
        }
        RequeueInv(if s.reconnecting then s else BeginReconnect(s));
      }
    case AttemptFails => BeginReconnectInv(s);
    case Reconnected => ReconnectedInv(s);
    case ResubscribeFails => BeginReconnectInv(s);
    case Message(id) => CompleteInv(s, {id}, Response(id));
    case Timeout(id) => CompleteInv(s, {id}, TimedOut);
    case CloseRpc => CloseInv(s);
  }

  lemma {:induction false} RunInv(steps: seq<Step>)
    ensures Inv(Run(INITIAL, steps))
    decreases |steps|
  {
    if steps != [] {
      RunInv(steps[..|steps| - 1]);
      StepInv(Run(INITIAL, steps[..|steps| - 1]), steps[|steps| - 1]);
    }
  }

  /**
   Over any number of disconnections and reconnections a request is handed to `_send` at most
   twice, exactly once, or queued for it, if it was made during a reconnection, also when it has
   completed since, and completes only with its own id.
   */
  lemma SentAtMostTwice(steps: seq<Step>, id: RequestId)
    ensures var s := Run(INITIAL, steps);
            && Count(s.sends, id) + Count(s.pending, id) <= 2
            && (id in s.phases && IsDeferred(s.phases[id]) ==> Count(s.sends, id) + Count(s.pending, id) == 1)
            && (id in s.phases && s.phases[id].Done? && s.phases[id].outcome.Response? ==>
                  s.phases[id].outcome.messageId == id)
  {
    RunInv(steps);
    assert Accounted(Run(INITIAL, steps), id);
  }

  /** The phases of a state keep what origin each request has. */
  ghost predicate KeepsOrigins(phases: map<RequestId, Phase>, phases': map<RequestId, Phase>)
  {
    forall id :: id in phases ==> id in phases' && (IsDeferred(phases'[id]) <==> IsDeferred(phases[id]))
  }

  lemma CompleteKeeps(s: State, ids: set<RequestId>, outcome: Outcome)
    ensures KeepsOrigins(s.phases, Complete(s, ids, outcome).phases)
  {
  }

  lemma BeginReconnectKeeps(s: State)
    ensures KeepsOrigins(s.phases, BeginReconnect(s).phases)
  {
    CompleteKeeps(s, s.phases.Keys, FatalError);
    CloseKeeps(Complete(s, s.phases.Keys, FatalError));
  }

  lemma CloseKeeps(s: State)
    ensures KeepsOrigins(s.phases, CloseStep(s).phases)
  {
    CompleteKeeps(s, (set id | id in s.phases && !s.phases[id].Queued?), ClosedWhileRequesting);
  }

  lemma StepKeeps(s: State, step: Step)
    ensures KeepsOrigins(s.phases, Next(s, step).phases)
  {
    match step
    case Disconnected => BeginReconnectKeeps(s);
    case AttemptFails => BeginReconnectKeeps(s);
    case ResubscribeFails => BeginReconnectKeeps(s);
    case Message(id) => CompleteKeeps(s, {id}, Response(id));
    case Timeout(id) => CompleteKeeps(s, {id}, TimedOut);
    case CloseRpc => CloseKeeps(s);
    case _ =>
  }

  lemma {:induction false} RunKeeps(s: State, steps: seq<Step>)
    ensures KeepsOrigins(s.phases, Run(s, steps).phases)
    decreases |steps|
  {
    if steps != [] {
      RunKeeps(s, steps[..|steps| - 1]);
      StepKeeps(Run(s, steps[..|steps| - 1]), steps[|steps| - 1]);
    }
  }

  /** A request made during a reconnection is sent at most once for good, whatever happens to it later. */
  lemma SentOnceIfDeferred(before: seq<Step>, id: RequestId, after: seq<Step>)
    requires var s := Run(INITIAL, before); id !in s.phases && s.reconnecting && !s.closed
    ensures var t := Run(Run(INITIAL, before), [Request(id)] + after);
            Count(t.sends, id) + Count(t.pending, id) == 1
  {
    var s := Run(INITIAL, before);
    var s1 := Run(s, [Request(id)]);
    assert [Request(id)][..0] == [];
    assert Run(s, []) == s && s1 == Next(s, Request(id));
    RunConcat(s, [Request(id)], after);
    RunKeeps(s1, after);
    RunConcat(INITIAL, before, [Request(id)] + after);
    SentAtMostTwice(before + ([Request(id)] + after), id);
  }

  // ---- Outcomes ---------------------------------------------------------------------------

  /**
   A message with the id of a waiting request makes that request done with that response, and
   changes nothing else; any other message changes nothing at all.
   */
  lemma AnswerCompletes(s: State, id: RequestId)
    ensures Next(s, Message(id)) ==
            if !s.closed && Waiting(s, id) then s.(phases := s.phases[id := Done(Response(id), s.phases[id].Queued?)])
            else s
  {
    var t := Next(s, Message(id));
    if !s.closed && !Waiting(s, id) {
      assert t.phases == s.phases;
    } else if !s.closed {
      assert t.phases == s.phases[id := Done(Response(id), s.phases[id].Queued?)];
    }
  }

  lemma TimeoutCompletes(s: State, id: RequestId)
    ensures Next(s, Timeout(id)) ==
            if Waiting(s, id) then s.(phases := s.phases[id := Done(TimedOut, s.phases[id].Queued?)]) else s
  {
    assert !Waiting(s, id) ==> Next(s, Timeout(id)).phases == s.phases;
    assert Waiting(s, id) ==>
        Next(s, Timeout(id)).phases == s.phases[id := Done(TimedOut, s.phases[id].Queued?)];
  }

  /** Closing fails the requests that were sent; one queued at once goes on waiting. */
  lemma CloseFails(s: State, id: RequestId)
    requires !s.closed && Waiting(s, id)
    ensures var t := Next(s, CloseRpc);
            t.closed && t.phases[id] == if s.phases[id].Queued? then Queued else Done(ClosedWhileRequesting, false)
  {
  }

  /** How often a request was sent or is queued to be. */
  function Sendings(s: State, id: RequestId): nat
  {
    Count(s.sends, id) + Count(s.pending, id)
  }

  lemma RequeueLeavesDone(s: State, id: RequestId)
    requires id in s.phases && s.phases[id].Done?
    ensures Count(s.pending + StillDirect(s.direct, s.phases), id) == Count(s.pending, id)
  {
    CountConcat(s.pending, StillDirect(s.direct, s.phases), id);
    CountStillDirect(s.direct, s.phases, id);
  }

  lemma DoneStaysInStep(s: State, step: Step, id: RequestId)
    requires id in s.phases && s.phases[id].Done?
    ensures var t := Next(s, step);
            id in t.phases && t.phases[id] == s.phases[id] && Sendings(t, id) == Sendings(s, id)
  {
    match step
    case Request(r) =>
      CountConcat(s.sends, [r], id);
      CountConcat(s.pending, [r], id);
    case Disconnected => RequeueLeavesDone(if s.reconnecting then s else BeginReconnect(s), id);
    case Reconnected => CountConcat(s.sends, s.pending, id);
    case _ =>
  }

  /** A request that is done keeps its outcome and is not sent or queued again. */
  lemma {:induction false} DoneStays(s: State, steps: seq<Step>, id: RequestId)
    requires id in s.phases && s.phases[id].Done?
    ensures var t := Run(s, steps);
            id in t.phases && t.phases[id] == s.phases[id] && Sendings(t, id) == Sendings(s, id)
    decreases |steps|
  {
    if steps != [] {
      DoneStays(s, steps[..|steps| - 1], id);
      DoneStaysInStep(Run(s, steps[..|steps| - 1]), steps[|steps| - 1], id);
    }
  }

  /**
   A request that is answered has its response for good, and has been sent or queued once in all
   later states, or twice exactly if a disconnection had queued it before the answer.
   */
  lemma AnsweredForGood(before: seq<Step>, id: RequestId, after: seq<Step>)
    requires var s := Run(INITIAL, before); !s.closed && Waiting(s, id)
    ensures var s := Run(INITIAL, before);
            var t := Run(Next(s, Message(id)), after);
            && id in t.phases && t.phases[id] == Done(Response(id), s.phases[id].Queued?)
            && Sendings(t, id) == if s.phases[id].Requeued? then 2 else 1
  {
    var s := Run(INITIAL, before);
    RunInv(before);
    assert Accounted(s, id);
    AnswerCompletes(s, id);
    DoneStays(Next(s, Message(id)), after, id);
  }

  /** What a new request meets: a closed connection, an open one, or a reconnection, whose success sends it. */
  lemma NewRequest(steps: seq<Step>, id: RequestId)
    requires id !in Run(INITIAL, steps).phases
    ensures var s := Run(INITIAL, steps);
            var t := Next(s, Request(id));
            && (s.closed ==> t.phases[id] == Done(AlreadyClosed, false) && Sendings(t, id) == 0)
            && (!s.closed ==> Waiting(t, id) && Sendings(t, id) == 1
                              && Count(t.sends, id) == if s.reconnecting then 0 else 1)
            && (!s.closed ==> Count(Next(t, Reconnected).sends, id) == 1)
  {
    var s := Run(INITIAL, steps);
    RunInv(steps);
    assert Accounted(s, id);
    CountConcat(s.sends, [id], id);
    CountConcat(s.pending, [id], id);
    var t := Next(s, Request(id));
    CountConcat(t.sends, t.pending, id);
  }

  /** A request in flight at a disconnection waits on, and the next reconnection sends it once more. */
  lemma InFlightIsResent(steps: seq<Step>, id: RequestId)
    requires var s := Run(INITIAL, steps);
             !s.closed && id in s.phases && s.phases[id].Direct? && (s.reconnecting || s.reconnectCount < MAX_RETRY)
    ensures var t := Next(Run(INITIAL, steps), Disconnected);
            var u := Next(t, Reconnected);
            && !t.closed && t.reconnecting && Count(t.sends, id) == 1 && Count(t.pending, id) == 1
            && !u.closed && Waiting(u, id) && Count(u.sends, id) == 2 && u.pending == []
  {
    var s := Run(INITIAL, steps);
    RunInv(steps);
    assert Accounted(s, id);
    var s1 := if s.reconnecting then s else BeginReconnect(s);
    CountConcat(s1.pending, StillDirect(s1.direct, s1.phases), id);
    CountStillDirect(s1.direct, s1.phases, id);
    CountPositive(s.direct, id);
    var t := Next(s, Disconnected);
    CountConcat(t.sends, t.pending, id);
  }

  /** Reconnecting fails `k` times in a row. */
  function Failures(k: nat): seq<Step>
  {
    if k == 0 then [] else Failures(k - 1) + [AttemptFails]
  }

  /** After a disconnection the client gives up exactly with the eighth failed attempt in a row. */
  lemma {:induction false} GivesUpIff(s: State, k: nat)
    requires !s.closed && !s.reconnecting && s.reconnectCount == 0
    ensures var t := Run(Next(s, Disconnected), Failures(k));
            && (t.closed <==> k >= MAX_RETRY)
            && t.reconnecting && t.reconnectCount == if k < MAX_RETRY then k + 1 else MAX_RETRY
  {
    if k > 0 {
      GivesUpIff(s, k - 1);
      assert Failures(k)[..|Failures(k)| - 1] == Failures(k - 1);
      FailsOnce(Run(Next(s, Disconnected), Failures(k - 1)));
    }
  }

  /** Giving up fails whatever still waits. */
  lemma GivingUpFails(s: State, id: RequestId)
    requires s.reconnecting && !s.closed && s.reconnectCount >= MAX_RETRY && Waiting(s, id)
    ensures var t := Next(s, AttemptFails);
            t.closed && t.phases[id] == Done(FatalError, s.phases[id].Queued?)
  {
  }

  /** A reconnection that cannot resubscribe begins again. */
  lemma ResubscribeBeginsAgain(s: State)
    requires !s.closed && s.reconnectCount < MAX_RETRY
    ensures var t := Next(s, ResubscribeFails);
            !t.closed && t.reconnecting && t.reconnectCount == s.reconnectCount + 1 && t.pending == s.pending
  {
  }

  lemma FailsOnce(s: State)
    requires s.reconnecting
    ensures var t := Next(s, AttemptFails);
            && (t.closed <==> s.closed || s.reconnectCount >= MAX_RETRY)
            && t.reconnecting && t.reconnectCount == s.reconnectCount + if s.reconnectCount < MAX_RETRY then 1 else 0
  {
  }

  lemma {:induction false} PendingGrows(s: State, steps: seq<Step>)
    requires Reconnected !in steps
    ensures s.pending <= Run(s, steps).pending
    decreases |steps|
  {
    if steps != [] {
      var before, step := steps[..|steps| - 1], steps[|steps| - 1];
      assert step in steps;
      assert forall x :: x in before ==> x in steps;
      PendingGrows(s, before);
    }
  }

  /**
   The next successful reconnection sends everything that was queued, in queue order, each request
   once, and empties the queue.
   */
  lemma FlushedByNextReconnection(steps: seq<Step>, more: seq<Step>)
    requires Reconnected !in more
    ensures var s := Run(INITIAL, steps);
            var t := Run(s, more);
            var u := Next(t, Reconnected);
            && u.pending == [] && !u.reconnecting && u.reconnectCount == 0
            && (exists added :: u.sends == t.sends + s.pending + added)
            && (forall id :: id in s.pending ==> Count(u.sends[|t.sends|..], id) == 1)
  {
    var s := Run(INITIAL, steps);
    var t := Run(s, more);
    PendingGrows(s, more);
    RunConcat(INITIAL, steps, more);
    Appended(t.sends, s.pending, t.pending);
    PendingOnce(steps + more);
  }

  lemma Appended(sends: seq<RequestId>, first: seq<RequestId>, all: seq<RequestId>)
    requires first <= all
    ensures exists added :: sends + all == sends + first + added
    ensures (sends + all)[|sends|..] == all
  {
    assert sends + all == sends + first + all[|first|..];
  }

  lemma PendingOnce(steps: seq<Step>)
    ensures var t := Run(INITIAL, steps);
            forall id :: id in t.pending ==> Count(t.pending, id) == 1
  {
    RunInv(steps);
    var t := Run(INITIAL, steps);
    forall id | id in t.pending
      ensures Count(t.pending, id) == 1
    {
      CountPositive(t.pending, id);
      assert Accounted(t, id);
    }
  }

  lemma {:induction false} RunConcat(s: State, xs: seq<Step>, ys: seq<Step>)
    ensures Run(s, xs + ys) == Run(Run(s, xs), ys)
    decreases |ys|
  {
    if ys == [] {
      assert xs + ys == xs;
    } else {
      assert (xs + ys)[..|xs + ys| - 1] == xs + ys[..|ys| - 1];
      RunConcat(s, xs, ys[..|ys| - 1]);
    }
  }

  // ---- The class --------------------------------------------------------------------------

  class RPC {
    var closed: bool
    var reconnecting: bool
    var reconnectCount: nat
    var pendingRequests: seq<RequestId>
    var onDisconnected: seq<RequestId>
    var phases: map<RequestId, Phase>
    var sends: seq<RequestId>

    ghost function Model(): State
      reads this
    {
      State(closed, reconnecting, reconnectCount, pendingRequests, onDisconnected, phases, sends)
    }

    constructor ()
      ensures Model() == INITIAL
    {
      closed, reconnecting, reconnectCount := false, false, 0;
      pendingRequests, onDisconnected, phases, sends := [], [], map[], [];
    }

    method SendRequest(id: RequestId)
      requires id !in phases
      modifies this
      ensures Model() == Next(old(Model()), Request(id))
    {
      if closed {
        phases := phases[id := Done(AlreadyClosed, false)];
        return;
      }
      if !reconnecting {
        sends := sends + [id];
        onDisconnected := onDisconnected + [id];
        phases := phases[id := Direct];
      } else {
        pendingRequests := pendingRequests + [id];
        phases := phases[id := Queued];
      }
    }

    /** A message reaches the request that waits for its id, if there is one. */
    method HandleMessage(id: string)
      modifies this`phases
      ensures Model() == Next(old(Model()), Message(id))
      ensures phases == if !closed && id in old(phases) && !old(phases)[id].Done?
                        then old(phases)[id := Done(Response(id), old(phases)[id].Queued?)] else old(phases)
    {
      AnswerCompletes(Model(), id);
      if closed || id !in phases || phases[id].Done? {
        return;
      }
      phases := phases[id := Completed(phases[id], Response(id))];
    }

    method ResolvePendingRequests()
      modifies this`sends, this`pendingRequests
      ensures sends == old(sends) + old(pendingRequests) && pendingRequests == []
    {
      for i := 0 to |pendingRequests|
        invariant pendingRequests == old(pendingRequests)
        invariant sends == old(sends) + pendingRequests[..i]
      {
        sends := sends + [pendingRequests[i]];
      }
      pendingRequests := [];
    }

    /** The requests wake up in the order in which they began to listen. */
    method RequeueInFlight()
      requires Inv(Model())
      modifies this`pendingRequests, this`onDisconnected, this`phases
      ensures var s := old(Model());
              Model() == s.(pending := s.pending + StillDirect(s.direct, s.phases),
                            direct := [],
                            phases := map id | id in s.phases ::
                                        if s.phases[id].Direct? && id in s.direct then Requeued else s.phases[id])
    {
      ghost var s := Model();
      var listeners := onDisconnected;
      onDisconnected := [];
      for i := 0 to |listeners|
        invariant unchanged(`closed, `reconnecting, `reconnectCount, `sends) && onDisconnected == []
        invariant RequeuedUpTo(s, i, pendingRequests, phases)
      {
        var id := listeners[i];
        RequeueNext(s, i, pendingRequests, phases);
        if id in phases && phases[id].Direct? {
          pendingRequests := pendingRequests + [id];
          phases := phases[id := Requeued];
        }
      }
      assert listeners[..|listeners|] == listeners;
    }
  }

  /** The first `i` of the requests listening have been queued. */
  ghost predicate RequeuedUpTo(s: State, i: nat, pending: seq<RequestId>, phases: map<RequestId, Phase>)
    requires i <= |s.direct|
  {
    && pending + StillDirect(s.direct[i..], phases) == s.pending + StillDirect(s.direct, s.phases)
    && phases == map id | id in s.phases ::
                   if s.phases[id].Direct? && id in s.direct[..i] then Requeued else s.phases[id]
  }

  lemma RequeueNext(s: State, i: nat, pending: seq<RequestId>, phases: map<RequestId, Phase>)
    requires Inv(s) && i < |s.direct| && RequeuedUpTo(s, i, pending, phases)
    ensures var id := s.direct[i];
            if id in phases && phases[id].Direct?
            then RequeuedUpTo(s, i + 1, pending + [id], phases[id := Requeued])
            else RequeuedUpTo(s, i + 1, pending, phases)
  {
    var id := s.direct[i];
    assert s.direct[..i + 1] == s.direct[..i] + [id];
    assert s.direct[i..][1..] == s.direct[i + 1..];
    if id in phases && phases[id].Direct? {
      NotAgain(s.direct, i, s);
      SameWithout(s.direct[i + 1..], phases, id);
      var rest := StillDirect(s.direct[i + 1..], phases);
      assert pending + ([id] + rest) == (pending + [id]) + rest;
    }
  }

  /** A request listens once. */
  lemma NotAgain(listeners: seq<RequestId>, i: nat, s: State)
    requires Inv(s) && s.direct == listeners && i < |listeners|
    ensures listeners[i] !in listeners[i + 1..]
  {
    var id := listeners[i];
    assert Accounted(s, id);
    assert listeners == listeners[..i] + ([id] + listeners[i + 1..]);
    CountConcat(listeners[..i], [id] + listeners[i + 1..], id);
    CountConcat([id], listeners[i + 1..], id);
    CountPositive(listeners[i + 1..], id);
  }

  lemma {:induction false} SameWithout(ids: seq<RequestId>, phases: map<RequestId, Phase>, id: RequestId)
    requires id !in ids
    ensures StillDirect(ids, phases[id := Requeued]) == StillDirect(ids, phases)
  {
    if ids != [] {
      SameWithout(ids[1..], phases, id);
    }
  }
}
