/**
 From an expired timer to the server and back: what the client asks for, and that it brings the
 replica up to date.
 */
module Recovery {
  import opened Util
  import opened Rooms
  import opened Replica
  import opened Delivery
  import JB = JitterBuffer

  lemma StepSupervised(w: World, s: Step)
    requires JB.Supervised(w.jitter)
    ensures JB.Supervised(Next(w, s).jitter)
  {
    match s
    case Deliver(v) =>
      if v in w.wire && 0 < v <= |w.log| && w.listeners > 0 {
        JB.OneRecoveryPerGap(w.jitter, Copies(JB.Frame(v, w.log[v - 1]), w.listeners));
      }
    case TimerFires => JB.StepSupervised(w.jitter, JB.Fire);
    case RecoverySettles => JB.StepSupervised(w.jitter, JB.Settle);
    case RecoveryRejects => JB.StepSupervised(w.jitter, JB.Reject);
    case _ =>
  }

  lemma {:induction false} RunSupervised(w: World, steps: seq<Step>)
    requires JB.Supervised(w.jitter)
    ensures JB.Supervised(Run(w, steps).jitter)
    decreases |steps|
  {
    if steps != [] {
      RunSupervised(w, steps[..|steps| - 1]);
      StepSupervised(Run(w, steps[..|steps| - 1]), steps[|steps| - 1]);
    }
  }

  lemma ReachableSupervised(w: World, snapshot: Client, v0: nat)
    requires Reachable(w, snapshot, v0)
    ensures JB.Supervised(w.jitter)
  {
    var start, steps :| Start(start, snapshot, v0) && w == Run(start, steps);
    RunSupervised(start, steps);
  }

  /** The timer is armed for a frame behind a gap that was not asked for yet. */
  predicate TimerIsDue(w: World)
  {
    w.jitter.timer.Armed? && w.jitter.present < w.jitter.timer.oldest && !w.jitter.lost
  }

  /**
   An expiring timer asks the server for the first version never received, once, exactly if it is
   due; otherwise it asks for nothing.  Nothing but the buffer's timer changes besides.
   */
  lemma TimerAsksIff(w: World, snapshot: Client, v0: nat)
    requires Reachable(w, snapshot, v0)
    ensures var gap := JB.FirstGap(w.received, v0 + 1);
            var w' := Next(w, TimerFires);
            && w'.requests == (if TimerIsDue(w) then w.requests + multiset{gap} else w.requests)
            && w' == w.(jitter := w'.jitter, requests := w'.requests)
            && w'.jitter.present == w.jitter.present && w'.jitter.buffer == w.jitter.buffer
            && w'.jitter.emitted == w.jitter.emitted
  {
    GapIsNext(w, snapshot, v0);
    TimerFired(w, w.jitter.present + 1);
  }

  lemma TimerFired(w: World, gap: nat)
    requires gap == w.jitter.present + 1
    ensures var w' := Next(w, TimerFires);
            && w'.requests == (if TimerIsDue(w) then w.requests + multiset{gap} else w.requests)
            && w' == w.(jitter := w'.jitter, requests := w'.requests)
            && w'.jitter.present == w.jitter.present && w'.jitter.buffer == w.jitter.buffer
            && w'.jitter.emitted == w.jitter.emitted
  {
    FireAsks(w.jitter);
  }

  lemma FireAsks(s: JB.State<Event>)
    ensures var t := JB.FireStep(s);
            && (t.recoveries != s.recoveries <==> s.timer.Armed? && s.present < s.timer.oldest && !s.lost)
            && t.present == s.present && t.buffer == s.buffer && t.emitted == s.emitted
  {
  }

  /** Once it has expired for a frame that was handed on meanwhile, or its recovery has settled, it is due. */
  lemma TimerIsDueNext(w: World)
    requires JB.Supervised(w.jitter) && w.jitter.buffer != map[] && !w.jitter.lost && !w.jitter.timer.Abandoned?
    requires !TimerIsDue(w)
    ensures var step := if w.jitter.timer.Armed? then TimerFires else RecoverySettles;
            var w' := Next(w, step);
            && TimerIsDue(w') && w' == w.(jitter := w'.jitter)
            && w'.jitter.present == w.jitter.present && w'.jitter.buffer == w.jitter.buffer
  {
    JB.ArmedForWaiting(w.jitter.(timer := JB.Unset));
  }

  lemma RunOne(w: World, s: Step)
    ensures Run(w, [s]) == Next(w, s)
  {
    assert [s][..0] == [] && Run(w, []) == w;
  }

  /**
   While frames wait behind a gap that was not asked for yet and the handle is not stuck, at most
   two steps of the timer ask the server for the first version never received.
   */
  lemma GapIsAskedFor(w: World, snapshot: Client, v0: nat) returns (steps: seq<Step>)
    requires Reachable(w, snapshot, v0) && w.jitter.buffer != map[]
    requires !w.jitter.lost && !w.jitter.timer.Abandoned?
    ensures |steps| <= 2 && forall s :: s in steps ==> s.TimerFires? || s.RecoverySettles?
    ensures var w' := Run(w, steps);
            && Reachable(w', snapshot, v0)
            && w'.requests == w.requests + multiset{JB.FirstGap(w.received, v0 + 1)}
            && w' == w.(jitter := w'.jitter, requests := w'.requests)
            && w'.jitter.present + 1 == JB.FirstGap(w.received, v0 + 1)
  {
    GapIsNext(w, snapshot, v0);
    ReachableSupervised(w, snapshot, v0);
    if TimerIsDue(w) {
      steps := [TimerFires];
      RunOne(w, TimerFires);
      TimerAsksIff(w, snapshot, v0);
      ReachableNext(w, TimerFires, snapshot, v0);
    } else {
      var first := if w.jitter.timer.Armed? then TimerFires else RecoverySettles;
      var w1 := Next(w, first);
      steps := [first, TimerFires];
      TimerIsDueNext(w);
      ReachableNext(w, first, snapshot, v0);
      TimerAsksIff(w1, snapshot, v0);
      ReachableNext(w1, TimerFires, snapshot, v0);
      RunOne(w, first);
      Unfold(w, [first], TimerFires);
      assert [first] + [TimerFires] == steps;
    }
  }

  /**
   From any reachable connected world of that kind: some timer steps, the server's answer to what
   they asked for, and the arrival of everything on the wire, in any order, leave the replica at
   the server's latest version.
   */
  lemma GapIsRecovered(w: World, snapshot: Client, v0: nat) returns (steps: seq<Step>)
    requires Reachable(w, snapshot, v0) && w.connected && w.jitter.buffer != map[]
    requires !w.jitter.lost && !w.jitter.timer.Abandoned?
    ensures |steps| <= 2 && forall s :: s in steps ==> s.TimerFires? || s.RecoverySettles?
    ensures var served := Next(Run(w, steps), Serve(JB.FirstGap(w.received, v0 + 1)));
            && served.log == w.log && v0 <= |w.log|
            && forall versions: seq<nat> :: multiset(versions) == served.wire ==>
                 var w' := Run(served, Deliveries(versions));
                 CaughtUp(w') && w'.client == ClientRun(snapshot, w.log[v0..])
  {
    steps := GapIsAskedFor(w, snapshot, v0);
    ServedCatchesUp(Run(w, steps), JB.FirstGap(w.received, v0 + 1), snapshot, v0);
  }

  lemma GapIsNext(w: World, snapshot: Client, v0: nat)
    requires Reachable(w, snapshot, v0)
    ensures JB.FirstGap(w.received, v0 + 1) == w.jitter.present + 1
  {
    ReachableInv(w, snapshot, v0);
  }

  /** A recovery that was asked for, whatever order its answer arrives in. */
  lemma ServedCatchesUp(w: World, gap: nat, snapshot: Client, v0: nat)
    requires Reachable(w, snapshot, v0) && w.connected && gap in w.requests && gap == w.jitter.present + 1
    ensures var served := Next(w, Serve(gap));
            && served.log == w.log && v0 <= |w.log|
            && forall versions: seq<nat> :: multiset(versions) == served.wire ==>
                 var w' := Run(served, Deliveries(versions));
                 CaughtUp(w') && w'.client == ClientRun(snapshot, w.log[v0..])
  {
    ReachableInv(w, snapshot, v0);
    var served := Next(w, Serve(gap));
    forall versions: seq<nat> | multiset(versions) == served.wire
      ensures var w' := Run(served, Deliveries(versions));
              CaughtUp(w') && w'.client == ClientRun(snapshot, w.log[v0..])
    {
      RecoveryCatchesUp(w, versions, snapshot, v0);
    }
  }

  /**
   A reconnection asks for the events from the version received last, or from 0 if there is none;
   once that is served, everything arrives exactly if nothing before that version is missing.
   */
  lemma ReconnectionCatchesUpIff(w: World, versions: seq<nat>, snapshot: Client, v0: nat)
    requires Reachable(w, snapshot, v0) && !w.connected
    requires var from := if w.offset.Some? then w.offset.value else 0;
             multiset(versions) == Next(Next(w, Reconnect), Serve(from)).wire
    ensures var from := if w.offset.Some? then w.offset.value else 0;
            var w' := Run(Next(Next(w, Reconnect), Serve(from)), Deliveries(versions));
            && v0 <= |w.log|
            && (CaughtUp(w') <==> forall v :: v0 < v <= |w.log| && v < from ==> v in w.received || v in w.wire)
  {
    var from := if w.offset.Some? then w.offset.value else 0;
    ReachableNext(w, Reconnect, snapshot, v0);
    ReplayCatchesUpIff(Next(w, Reconnect), from, versions, snapshot, v0);
  }
}
