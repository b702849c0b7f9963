/**
 From the server's event log to the rooms: log, notifications, jitter buffer, replica, mirror.

 The server is an append-only log; version `v` is `log[v - 1]`.  Notifications are reordered,
 dropped, duplicated by the listener that every connection attempt adds, and replayed on request.
 */
module Delivery {
  import opened Util
  import opened Replica
  import opened Rooms
  import JB = JitterBuffer

  datatype World = World(
    log: seq<Event>,
    wire: multiset<nat>,      // versions of the notifications in flight
    connected: bool,
    listeners: nat,           // `_onMessage` listeners that forward notifications
    offset: Option<nat>,      // `_subscribingChannelVersions`: the version received last
    requests: multiset<nat>,  // offsets of the `subscribeChannelEvents` calls not served yet
    jitter: JB.State<Event>,
    client: Client,
    received: set<nat>)       // history: the versions ever handed to the buffer

  datatype Step =
    | Append(change: Change)  // the server logs a change and notifies
    | Deliver(version: nat)
    | Drop(version: nat)
    | Disconnect
    | AttemptFails            // `connect` adds its listener before it fails
    | Reconnect
    | Serve(offset: nat)      // the server replays from an offset on
    | TimerFires
    | RecoverySettles
    | RecoveryRejects

  /** The versions of a log of length `n`, from one on. */
  function Replay(n: nat, from: nat): (versions: multiset<nat>)
    ensures forall v :: v in versions <==> 0 < v <= n && from <= v
  {
    if n == 0 || n < from then multiset{} else Replay(n - 1, from) + multiset{n}
  }

  /** Hands one notification to the jitter buffer as often as there are listeners. */
  ghost function Receive(w: World, v: nat): World
    requires 0 < v <= |w.log|
  {
    if w.listeners == 0 then w else
    Forward(w.(offset := Some(v), received := w.received + {v}),
            JB.Run(w.jitter, Copies(JB.Frame(v, w.log[v - 1]), w.listeners)))
  }

  function Copies(f: JB.Frame<Event>, n: nat): seq<JB.Action<Event>>
  {
    seq(n, i => JB.Push(f))
  }

  /** The new buffer state, with what it newly emitted passed on to the client. */
  ghost function Forward(w: World, jitter: JB.State<Event>): World
  {
    var emitted := if w.jitter.emitted <= jitter.emitted then jitter.emitted[|w.jitter.emitted|..] else [];
    w.(jitter := jitter, client := ClientRun(w.client, emitted))
  }

  ghost function Next(w: World, s: Step): World
  {
    match s
    case Append(change) =>
      var version := |w.log| + 1;
      w.(log := w.log + [Event(version, change)],
         wire := if w.connected then w.wire + multiset{version} else w.wire)
    case Deliver(v) =>
      if v in w.wire && 0 < v <= |w.log| then Receive(w.(wire := w.wire - multiset{v}), v) else w
    case Drop(v) => w.(wire := w.wire - multiset{v})
    case Disconnect => w.(connected := false, wire := multiset{})
    case AttemptFails => w.(listeners := w.listeners + 1)
    case Reconnect =>
      if w.connected then w else
      w.(connected := true, listeners := w.listeners + 1,
         requests := w.requests + multiset{if w.offset.Some? then w.offset.value else 0})
    case Serve(from) =>
      if w.connected && from in w.requests
      then w.(requests := w.requests - multiset{from}, wire := w.wire + Replay(|w.log|, from))
      else w
    case TimerFires =>
      var jitter := JB.FireStep(w.jitter);
      w.(jitter := jitter,
         requests := if jitter.recoveries != w.jitter.recoveries
                     then w.requests + multiset{w.jitter.present + 1} else w.requests)
    case RecoverySettles => w.(jitter := JB.Step(w.jitter, JB.Settle))
    case RecoveryRejects => w.(jitter := JB.Step(w.jitter, JB.Reject))
  }

  ghost function Run(w: World, steps: seq<Step>): World
    decreases |steps|
  {
    if steps == [] then w else Next(Run(w, steps[..|steps| - 1]), steps[|steps| - 1])
  }

  /** The world is one that a run can lead to. */
  ghost predicate Reachable(w: World, snapshot: Client, v0: nat)
  {
    exists start, steps :: Start(start, snapshot, v0) && w == Run(start, steps)
  }

  /** A client that has just loaded the snapshot of version `v0` and is connected. */
  ghost predicate Start(w: World, snapshot: Client, v0: nat)
  {
    && v0 <= |w.log|
    && (forall i :: 0 <= i < |w.log| ==> w.log[i].version == i + 1)
    && w.wire == multiset{} && w.requests == multiset{}
    && w.connected && w.listeners == 1 && w.offset == None
    && w.jitter == JB.Init(v0)
    && snapshot.channel.version == v0
    && w.client == snapshot
    && w.received == {}
  }

  ghost predicate Inv(w: World, snapshot: Client, v0: nat)
  {
    && (forall i :: 0 <= i < |w.log| ==> w.log[i].version == i + 1)
    && (forall v :: v in w.wire ==> 0 < v <= |w.log|)
    && JB.Determined(w.jitter, w.log, v0, w.received)
    && w.client == ClientRun(snapshot, w.jitter.emitted)
    && w.client.channel.version == w.jitter.present
    && (w.connected ==> w.listeners > 0)
  }

  lemma {:induction false} ClientRunConcat(k: Client, xs: seq<Event>, ys: seq<Event>)
    ensures ClientRun(k, xs + ys) == ClientRun(ClientRun(k, xs), ys)
    decreases |ys|
  {
    if ys == [] {
      assert xs + ys == xs;
    } else {
      assert (xs + ys)[..|xs + ys| - 1] == xs + ys[..|ys| - 1];
      ClientRunConcat(k, xs, ys[..|ys| - 1]);
    }
  }

  lemma VersionIsLast(k: Client, log: seq<Event>, v0: nat, n: nat)
    requires v0 <= n <= |log| && k.channel.version == v0
    requires forall i :: 0 <= i < |log| ==> log[i].version == i + 1
    ensures ClientRun(k, log[v0..n]).channel.version == n
  {
    if n > v0 {
      assert log[v0..n][n - v0 - 1] == log[n - 1];
    }
  }

  lemma AddedToClient(k: Client, before: seq<Event>, after: seq<Event>)
    requires before <= after
    ensures ClientRun(ClientRun(k, before), after[|before|..]) == ClientRun(k, after)
  {
    ClientRunConcat(k, before, after[|before|..]);
    assert before + after[|before|..] == after;
  }

  /** However many listeners push it, a notification counts once. */
  lemma CopiesDetermined(jitter: JB.State<Event>, log: seq<Event>, v: nat, listeners: nat, v0: nat, received: set<nat>)
    requires JB.Determined(jitter, log, v0, received) && 0 < v <= |log| && listeners > 0
    ensures JB.Determined(JB.Run(jitter, Copies(JB.Frame(v, log[v - 1]), listeners)), log, v0, received + {v})
  {
    var f := JB.Frame(v, log[v - 1]);
    var copies := Copies(f, listeners);
    JB.RunDetermined(jitter, copies, log, v0, received);
    assert JB.Pushed(copies) == {v} by {
      assert copies[0] == JB.Push(f);
    }
  }

  lemma ReceiveInv(w: World, v: nat, snapshot: Client, v0: nat)
    requires Inv(w, snapshot, v0) && snapshot.channel.version == v0
    requires 0 < v <= |w.log|
    ensures Inv(Receive(w, v), snapshot, v0)
    ensures Receive(w, v).received == if w.listeners > 0 then w.received + {v} else w.received
    ensures Receive(w, v).(jitter := w.jitter, client := w.client, received := w.received, offset := w.offset) == w
  {
    if w.listeners > 0 {
      var copies := Copies(JB.Frame(v, w.log[v - 1]), w.listeners);
      CopiesDetermined(w.jitter, w.log, v, w.listeners, v0, w.received);
      var jitter := JB.Run(w.jitter, copies);
      Grows(w.jitter, copies);
      AddedToClient(snapshot, w.jitter.emitted, jitter.emitted);
      VersionIsLast(snapshot, w.log, v0, jitter.present);
    }
  }

  lemma {:induction false} Grows(s: JB.State<Event>, actions: seq<JB.Action<Event>>)
    ensures s.emitted <= JB.Run(s, actions).emitted
    decreases |actions|
  {
    if actions != [] {
      Grows(s, actions[..|actions| - 1]);
    }
  }

  lemma AppendInv(w: World, change: Change, snapshot: Client, v0: nat)
    requires Inv(w, snapshot, v0)
    ensures Inv(Next(w, Append(change)), snapshot, v0)
  {
    var log' := Next(w, Append(change)).log;
    assert log'[v0..w.jitter.present] == w.log[v0..w.jitter.present];
    forall v | v in w.jitter.buffer
      ensures JB.IsEntry(w.jitter.buffer[v], log')
    {
      assert JB.IsEntry(w.jitter.buffer[v], w.log);
    }
  }

  /** Steps of the timer and the recovery do not change what the buffer has determined. */
  lemma TimerInv(w: World, a: JB.Action<Event>, requests: multiset<nat>, snapshot: Client, v0: nat)
    requires Inv(w, snapshot, v0) && !a.Push?
    ensures Inv(w.(jitter := JB.Step(w.jitter, a), requests := requests), snapshot, v0)
  {
    JB.OtherSteps(w.jitter, a);
  }

  lemma StepInv(w: World, s: Step, snapshot: Client, v0: nat)
    requires Inv(w, snapshot, v0) && snapshot.channel.version == v0
    ensures Inv(Next(w, s), snapshot, v0)
  {
    match s
    case Append(change) => AppendInv(w, change, snapshot, v0);
    case Deliver(v) =>
      if v in w.wire {
        ReceiveInv(w.(wire := w.wire - multiset{v}), v, snapshot, v0);
      }
    case TimerFires => TimerInv(w, JB.Fire, Next(w, s).requests, snapshot, v0);
    case RecoverySettles => TimerInv(w, JB.Settle, w.requests, snapshot, v0);
    case RecoveryRejects => TimerInv(w, JB.Reject, w.requests, snapshot, v0);
    case _ => LinkInv(w, s, snapshot, v0);
  }

  lemma LinkInv(w: World, s: Step, snapshot: Client, v0: nat)
    requires Inv(w, snapshot, v0)
    requires s.Drop? || s.Disconnect? || s.AttemptFails? || s.Reconnect? || s.Serve?
    ensures Inv(Next(w, s), snapshot, v0)
  {
  }

  lemma {:induction false} RunInv(w: World, steps: seq<Step>, snapshot: Client, v0: nat)
    requires Start(w, snapshot, v0)
    ensures Inv(Run(w, steps), snapshot, v0)
    decreases |steps|
  {
    if steps == [] {
      assert w.log[v0..v0] == [];
    } else {
      RunInv(w, steps[..|steps| - 1], snapshot, v0);
      StepInv(Run(w, steps[..|steps| - 1]), steps[|steps| - 1], snapshot, v0);
    }
  }

  lemma ReachableInv(w: World, snapshot: Client, v0: nat)
    requires Reachable(w, snapshot, v0)
    ensures Inv(w, snapshot, v0) && snapshot.channel.version == v0
  {
    var start, steps :| Start(start, snapshot, v0) && w == Run(start, steps);
    RunInv(start, steps, snapshot, v0);
  }

  /**
   In every run the channel is the snapshot folded over the server's log up to the channel's own
   version, whatever the network did.
   */
  lemma ReplicaIsFoldedLog(w: World, snapshot: Client, v0: nat)
    requires Reachable(w, snapshot, v0)
    ensures var n := w.client.channel.version;
            && v0 <= n <= |w.log|
            && w.client.channel == Fold(snapshot.channel, w.log[v0..n])
            && w.client == ClientRun(snapshot, w.log[v0..n])
  {
    ReachableInv(w, snapshot, v0);
    ClientFollowsFold(snapshot, w.log[v0..w.jitter.present]);
  }

  lemma {:induction false} WellOrderedPrefix(c: Channel, events: seq<Event>, n: nat)
    requires n <= |events| && WellOrdered(c, events)
    ensures WellOrdered(c, events[..n])
    decreases |events|
  {
    if n < |events| {
      WellOrderedPrefix(c, events[..|events| - 1], n);
      assert events[..|events| - 1][..n] == events[..n];
    } else {
      assert events[..n] == events;
    }
  }

  /** In every run over a well-ordered log the mirror and both rooms agree with the replica. */
  lemma RoomsShowTheReplica(w: World, snapshot: Client, v0: nat)
    requires Reachable(w, snapshot, v0) && Consistent(snapshot)
    requires v0 <= |w.log| && WellOrdered(snapshot.channel, w.log[v0..])
    ensures Consistent(w.client)
  {
    ReplicaIsFoldedLog(w, snapshot, v0);
    var n := w.client.channel.version;
    assert w.log[v0..][..n - v0] == w.log[v0..n];
    WellOrderedPrefix(snapshot.channel, w.log[v0..], n - v0);
    RoomsShowTheChannel(snapshot, w.log[v0..n]);
  }

  // ---- Catching up ------------------------------------------------------------------------

  ghost function Deliveries(versions: seq<nat>): seq<Step>
  {
    seq(|versions|, i requires 0 <= i < |versions| => Deliver(versions[i]))
  }

  /** `w'` is `w` after the given notifications have arrived. */
  ghost predicate Arrived(w: World, w': World, versions: seq<nat>)
  {
    && w'.log == w.log && w'.listeners == w.listeners > 0
    && multiset(versions) <= w.wire && w'.wire == w.wire - multiset(versions)
    && w'.received == w.received + (set v | v in versions)
  }

  lemma DeliverOne(w: World, v: nat, snapshot: Client, v0: nat)
    requires Inv(w, snapshot, v0) && snapshot.channel.version == v0 && w.listeners > 0
    requires v in w.wire
    ensures Inv(Next(w, Deliver(v)), snapshot, v0)
    ensures Arrived(w, Next(w, Deliver(v)), [v])
    ensures Next(w, Deliver(v)).offset == Some(v)
  {
    ReceiveInv(w.(wire := w.wire - multiset{v}), v, snapshot, v0);
    assert multiset([v]) == multiset{v};
  }

  lemma ArrivedTrans(w: World, w1: World, w2: World, xs: seq<nat>, ys: seq<nat>)
    requires Arrived(w, w1, xs) && Arrived(w1, w2, ys)
    ensures Arrived(w, w2, xs + ys)
  {
    assert multiset(xs + ys) == multiset(xs) + multiset(ys);
    assert (set v | v in xs + ys) == (set v | v in xs) + (set v | v in ys);
  }

  /** Delivering some of what is on the wire, in any order, adds exactly that to what was received. */
  lemma {:induction false} DeliverAll(w: World, versions: seq<nat>, snapshot: Client, v0: nat)
    requires Inv(w, snapshot, v0) && snapshot.channel.version == v0 && w.listeners > 0
    requires multiset(versions) <= w.wire
    ensures Inv(Run(w, Deliveries(versions)), snapshot, v0)
    ensures Arrived(w, Run(w, Deliveries(versions)), versions)
    decreases |versions|
  {
    if versions != [] {
      var before, v := versions[..|versions| - 1], versions[|versions| - 1];
      assert versions == before + [v];
      DeliverAll(w, before, snapshot, v0);
      DeliverNext(w, Run(w, Deliveries(before)), before, v, snapshot, v0);
      RunDeliveries(w, before, v);
    } else {
      assert w.received + (set v | v in versions) == w.received;
    }
  }

  lemma DeliverNext(w: World, w1: World, before: seq<nat>, v: nat, snapshot: Client, v0: nat)
    requires Inv(w1, snapshot, v0) && snapshot.channel.version == v0
    requires Arrived(w, w1, before) && multiset(before + [v]) <= w.wire
    ensures Inv(Next(w1, Deliver(v)), snapshot, v0)
    ensures Arrived(w, Next(w1, Deliver(v)), before + [v])
  {
    assert multiset(before + [v]) == multiset(before) + multiset{v};
    DeliverOne(w1, v, snapshot, v0);
    ArrivedTrans(w, w1, Next(w1, Deliver(v)), before, [v]);
  }

  lemma RunDeliveries(w: World, before: seq<nat>, v: nat)
    ensures Run(w, Deliveries(before + [v])) == Next(Run(w, Deliveries(before)), Deliver(v))
  {
    assert Deliveries(before + [v]) == Deliveries(before) + [Deliver(v)];
    Unfold(w, Deliveries(before), Deliver(v));
  }

  lemma ServeInv(w: World, from: nat, snapshot: Client, v0: nat)
    requires Inv(w, snapshot, v0) && snapshot.channel.version == v0
    requires w.connected && from in w.requests
    ensures var w' := Next(w, Serve(from));
            && Inv(w', snapshot, v0) && w'.log == w.log && w'.listeners == w.listeners > 0
            && w'.received == w.received && w'.wire == w.wire + Replay(|w.log|, from)
  {
  }

  /** What a caught-up client looks like. */
  ghost predicate CaughtUp(w: World)
  {
    w.client.channel.version == |w.log| && w.jitter.buffer == map[]
  }

  lemma CaughtUpIff(w: World, snapshot: Client, v0: nat)
    requires Inv(w, snapshot, v0)
    ensures CaughtUp(w) <==> forall v :: v0 < v <= |w.log| ==> v in w.received
    ensures v0 <= |w.log|
    ensures CaughtUp(w) ==> w.client == ClientRun(snapshot, w.log[v0..])
  {
    EmptyIff(w.jitter, w.log, v0, w.received);
    assert w.log[v0..|w.log|] == w.log[v0..];
  }

  /**
   After the server has served a replay from `from` and everything on the wire has arrived, in
   any order, the replica is at the server's latest version with an empty buffer, exactly if no
   version before `from` is missing.
   */
  lemma ReplayCatchesUpIff(w: World, from: nat, versions: seq<nat>, snapshot: Client, v0: nat)
    requires Reachable(w, snapshot, v0) && w.connected && from in w.requests
    requires multiset(versions) == Next(w, Serve(from)).wire
    ensures var w' := Run(Next(w, Serve(from)), Deliveries(versions));
            && w'.log == w.log
            && v0 <= |w.log|
            && (CaughtUp(w') <==> forall v :: v0 < v <= |w.log| && v < from ==> v in w.received || v in w.wire)
            && (CaughtUp(w') ==> w'.client == ClientRun(snapshot, w.log[v0..]))
  {
    ReachableInv(w, snapshot, v0);
    ServeInv(w, from, snapshot, v0);
    var served := Next(w, Serve(from));
    DeliverAll(served, versions, snapshot, v0);
    var w' := Run(served, Deliveries(versions));
    CaughtUpIff(w', snapshot, v0);
    forall v: nat
      ensures v in w'.received <==> v in w.received || v in w.wire || (0 < v <= |w.log| && from <= v)
    {
      assert v in versions <==> v in multiset(versions);
      assert v in Replay(|w.log|, from) <==> 0 < v <= |w.log| && from <= v;
    }
  }

  lemma EmptyIff(s: JB.State<Event>, log: seq<Event>, v0: nat, received: set<nat>)
    requires JB.Determined(s, log, v0, received)
    ensures s.present == |log| && s.buffer == map[] <==> forall v :: v0 < v <= |log| ==> v in received
    ensures s.present == |log| ==> s.buffer == map[]
  {
    forall v | v in s.buffer
      ensures s.present < v <= |log|
    {
      assert JB.IsEntry(s.buffer[v], log);
    }
    if s.present == |log| {
      assert s.buffer.Keys == {};
      forall v | v0 < v <= |log|
        ensures v in received
      {
        assert v0 + 1 <= v < JB.FirstGap(received, v0 + 1);
      }
    } else {
      assert s.present + 1 !in received;
    }
  }

  /** A recovery asks for the first missing version, so once served it always catches up. */
  lemma RecoveryCatchesUp(w: World, versions: seq<nat>, snapshot: Client, v0: nat)
    requires Reachable(w, snapshot, v0) && w.connected && w.jitter.present + 1 in w.requests
    requires multiset(versions) == Next(w, Serve(w.jitter.present + 1)).wire
    ensures var w' := Run(Next(w, Serve(w.jitter.present + 1)), Deliveries(versions));
            CaughtUp(w') && v0 <= |w.log| == |w'.log| && w'.client == ClientRun(snapshot, w.log[v0..])
  {
    ReachableInv(w, snapshot, v0);
    ReplayCatchesUpIff(w, w.jitter.present + 1, versions, snapshot, v0);
  }

  lemma ReachableNext(w: World, s: Step, snapshot: Client, v0: nat)
    requires Reachable(w, snapshot, v0)
    ensures Reachable(Next(w, s), snapshot, v0)
  {
    var start, steps :| Start(start, snapshot, v0) && w == Run(start, steps);
    Unfold(start, steps, s);
    assert Next(w, s) == Run(start, steps + [s]);
  }

  /** Version 1 was lost, version 2 arrived, and the connection broke. */
  ghost predicate BrokenAfterLoss(w: World)
  {
    && w.log == [Event(1, ChannelCreated), Event(2, ChannelCreated)]
    && w.received == {2} && w.offset == Some(2)
    && w.wire == multiset{} && !w.connected
  }

  /**
   The offset of a reconnection is the version received last, not the first one missing: after
   such a loss the replay that a reconnection asks for leaves the replica where it was.
   */
  lemma ReconnectionCanLeaveAGap(w: World, snapshot: Client)
    requires Reachable(w, snapshot, 0) && BrokenAfterLoss(w)
    ensures var w' := Next(Next(w, Reconnect), Serve(2));
            w'.wire == multiset{2} && !CaughtUp(Run(w', Deliveries([2])))
  {
    var w1 := Next(w, Reconnect);
    ReachableNext(w, Reconnect, snapshot, 0);
    assert Replay(2, 2) == Replay(1, 2) + multiset{2} == multiset{2};
    ReplayCatchesUpIff(w1, 2, [2], snapshot, 0);
    assert 1 !in w1.received && 1 !in w1.wire;
  }

  /** Such a loss can happen to any client that starts from an empty log. */
  lemma LossIsReachable(w: World, snapshot: Client) returns (w': World)
    requires Start(w, snapshot, 0) && w.log == []
    ensures Reachable(w', snapshot, 0) && BrokenAfterLoss(w')
  {
    assert Reachable(w, snapshot, 0) by {
      assert Run(w, []) == w;
    }
    var w1 := Next(w, Append(ChannelCreated));
    ReachableNext(w, Append(ChannelCreated), snapshot, 0);
    var w2 := Next(w1, Append(ChannelCreated));
    ReachableNext(w1, Append(ChannelCreated), snapshot, 0);
    TwoAppended(w);
    w' := LoseAndBreak(w2, snapshot);
  }

  lemma TwoAppended(w: World)
    requires w.log == [] && w.wire == multiset{} && w.connected
    ensures var w2 := Next(Next(w, Append(ChannelCreated)), Append(ChannelCreated));
            && w2.wire == multiset{1, 2} && w2.listeners == w.listeners && w2.received == w.received
            && w2.log == [Event(1, ChannelCreated), Event(2, ChannelCreated)]
  {
  }

  lemma LoseAndBreak(w: World, snapshot: Client) returns (w': World)
    requires Reachable(w, snapshot, 0) && w.received == {} && w.wire == multiset{1, 2} && w.listeners > 0
    requires w.log == [Event(1, ChannelCreated), Event(2, ChannelCreated)]
    ensures Reachable(w', snapshot, 0) && BrokenAfterLoss(w')
  {
    var w1 := LoseFirst(w, snapshot);
    ReachableNext(w1, Disconnect, snapshot, 0);
    w' := Next(w1, Disconnect);
  }

  lemma LoseFirst(w: World, snapshot: Client) returns (w': World)
    requires Reachable(w, snapshot, 0) && w.received == {} && w.wire == multiset{1, 2} && w.listeners > 0
    requires |w.log| == 2
    ensures Reachable(w', snapshot, 0) && w'.log == w.log
    ensures w'.received == {2} && w'.offset == Some(2) && w'.wire == multiset{}
  {
    var w1 := Next(w, Drop(1));
    ReachableNext(w, Drop(1), snapshot, 0);
    ReachableInv(w1, snapshot, 0);
    DeliverOne(w1, 2, snapshot, 0);
    ReachableNext(w1, Deliver(2), snapshot, 0);
    w' := Next(w1, Deliver(2));
  }

  lemma Unfold(w: World, before: seq<Step>, s: Step)
    ensures Run(w, before + [s]) == Next(Run(w, before), s)
  {
    assert (before + [s])[..|before|] == before;
  }
}
