/** What the rooms of a client show of the server's log, in every run. */
module Shown {
  import opened Util
  import opened Replica
  import opened Rooms
  import opened Records
  import opened Delivery

  lemma {:induction false} LogInOrderPrefix(c: Channel, events: seq<Event>, n: nat)
    requires n <= |events| && LogInOrder(c, events)
    ensures LogInOrder(c, events[..n])
    decreases |events|
  {
    if n < |events| {
      assert events[..|events| - 1][..n] == events[..n];
      LogInOrderPrefix(c, events[..|events| - 1], n);
    } else {
      assert events[..n] == events;
    }
  }

  /** In every run over a log in order both rooms show the records of the server's log so far, each by its rule. */
  lemma RoomsShowTheLog(w: World, snapshot: Client, v0: nat)
    requires Reachable(w, snapshot, v0) && Consistent(snapshot) && v0 <= |w.log|
    requires Described(TablesOf(snapshot.channel), snapshot.mirror)
    requires WellOrdered(snapshot.channel, w.log[v0..]) && LogInOrder(snapshot.channel, w.log[v0..])
    ensures var n := w.client.channel.version;
            && v0 <= n <= |w.log|
            && var t := TablesOf(Fold(snapshot.channel, w.log[v0..n]));
               w.client.sfu == RoomOf(true, t) && w.client.p2p == RoomOf(false, t)
  {
    ReplicaIsFoldedLog(w, snapshot, v0);
    PrefixShown(snapshot, w.log[v0..], w.client.channel.version - v0);
    assert w.log[v0..][..w.client.channel.version - v0] == w.log[v0..w.client.channel.version];
  }

  /** What the rooms show after a first part of a log in order. */
  lemma PrefixShown(snapshot: Client, events: seq<Event>, n: nat)
    requires n <= |events| && Consistent(snapshot) && Described(TablesOf(snapshot.channel), snapshot.mirror)
    requires WellOrdered(snapshot.channel, events) && LogInOrder(snapshot.channel, events)
    ensures var (t, k) := (TablesOf(Fold(snapshot.channel, events[..n])), ClientRun(snapshot, events[..n]));
            k.sfu == RoomOf(true, t) && k.p2p == RoomOf(false, t)
  {
    WellOrderedPrefix(snapshot.channel, events, n);
    LogInOrderPrefix(snapshot.channel, events, n);
    RoomsShowTheRecords(snapshot, events[..n]);
    ClientFollowsFold(snapshot, events[..n]);
  }
}
