/**
 Messages that arrive before the connection they are for: `MessageBuffer` keeps them and replays
 them through the very event it listens to.
 */
module MessageBuffers {
  import opened Util

  datatype Endpoint = Endpoint(id: string, name: Option<string>)
  datatype Message = Message(src: Endpoint, data: string)

  /** `src.id + src.name`, where a missing name is spelled out. */
  function Key(e: Endpoint): string
  {
    e.id + (if e.name.Some? then e.name.value else "undefined")
  }

  datatype State = State(
    buffers: map<string, seq<Message>>,       // `_indicateMessageBuffer`
    excluded: set<string>,                    // `_excludeConnectionIndicateBuffering`
    connections: map<Endpoint, seq<Message>>) // what each live connection's listener has been given

  datatype Action =
    | Arrive(message: Message)
    | Create(endpoint: Endpoint)  // `_getOrCreateConnection`
    | Close(endpoint: Endpoint)

  function Buffered(s: State, key: string): seq<Message>
  {
    if key in s.buffers then s.buffers[key] else []
  }

  /** `signaling.onMessage.emit`: the buffer's listener, then those of the connections. */
  function Emit(s: State, m: Message): State
  {
    var key := Key(m.src);
    var s := if key in s.excluded then s else s.(buffers := s.buffers[key := Buffered(s, key) + [m]]);
    if m.src in s.connections then s.(connections := s.connections[m.src := s.connections[m.src] + [m]]) else s
  }

  function EmitAll(s: State, ms: seq<Message>): State
    decreases |ms|
  {
    if ms == [] then s else Emit(EmitAll(s, ms[..|ms| - 1]), ms[|ms| - 1])
  }

  /** `resolveMessagingBuffer` */
  function Resolve(s: State, e: Endpoint): State
  {
    var key := Key(e);
    var s := if Buffered(s, key) == [] then s
             else var t := EmitAll(s, Buffered(s, key)); t.(buffers := t.buffers - {key});
    s.(excluded := s.excluded + {key})
  }

  function Step(s: State, a: Action): State
  {
    match a
    case Arrive(m) => Emit(s, m)
    case Create(e) => if e in s.connections then s else Resolve(s.(connections := s.connections[e := []]), e)
    case Close(e) => s.(connections := s.connections - {e})
  }

  function Run(actions: seq<Action>): State
    decreases |actions|
  {
    if actions == [] then State(map[], {}, map[]) else Step(Run(actions[..|actions| - 1]), actions[|actions| - 1])
  }

  // ---- What an endpoint's connection should see -------------------------------------------

  datatype View =
    | Waiting(held: seq<Message>)    // no connection yet: everything is held for the first one
    | Connected(seen: seq<Message>)
    | Gone                           // a connection was closed

  function ViewStep(v: View, a: Action, e: Endpoint): View
  {
    match a
    case Arrive(m) =>
      if m.src != e then v
      else (match v
            case Waiting(held) => Waiting(held + [m])
            case Connected(seen) => Connected(seen + [m])
            case Gone => Gone)
    case Create(c) =>
      if c != e then v
      else (match v
            case Waiting(held) => Connected(held)
            case Connected(_) => v
            case Gone => Connected([]))
    case Close(c) => if c == e && v.Connected? then Gone else v
  }

  function ViewOf(actions: seq<Action>, e: Endpoint): View
    decreases |actions|
  {
    if actions == [] then Waiting([]) else ViewStep(ViewOf(actions[..|actions| - 1], e), actions[|actions| - 1], e)
  }

  /** The messages from an endpoint, in arrival order. */
  function From(actions: seq<Action>, e: Endpoint): seq<Message>
    decreases |actions|
  {
    if actions == [] then [] else
    var before, a := From(actions[..|actions| - 1], e), actions[|actions| - 1];
    if a.Arrive? && a.message.src == e then before + [a.message] else before
  }

  /** Member ids are all of one length and a member has one name. */
  ghost predicate Members(es: set<Endpoint>)
  {
    forall a, b :: a in es && b in es ==> |a.id| == |b.id| && (a.id == b.id ==> a == b)
  }

  ghost predicate Involves(actions: seq<Action>, es: set<Endpoint>)
  {
    forall i :: 0 <= i < |actions| ==> Who(actions[i]) in es
  }

  function Who(a: Action): Endpoint
  {
    match a
    case Arrive(m) => m.src
    case Create(e) => e
    case Close(e) => e
  }

  lemma KeyInjective(es: set<Endpoint>, a: Endpoint, b: Endpoint)
    requires Members(es) && a in es && b in es && Key(a) == Key(b)
    ensures a == b
  {
    assert Key(a)[..|a.id|] == a.id && Key(b)[..|b.id|] == b.id;
  }

  /** The buffer holds messages of its own endpoint only. */
  ghost predicate Sorted(s: State, e: Endpoint, v: View)
  {
    match v
    case Waiting(held) =>
      && Key(e) !in s.excluded && e !in s.connections
      && (if held == [] then Key(e) !in s.buffers else Key(e) in s.buffers && s.buffers[Key(e)] == held)
      && forall i :: 0 <= i < |held| ==> held[i].src == e
    case Connected(seen) =>
      && Key(e) in s.excluded && Key(e) !in s.buffers
      && e in s.connections && s.connections[e] == seen
    case Gone =>
      Key(e) in s.excluded && Key(e) !in s.buffers && e !in s.connections
  }

  /**
   Replaying terminates with the replayed messages handed to the new connection in order, although
   each of them is pushed back onto the list being walked; no other endpoint notices.
   */
  lemma {:induction false} Replay(s: State, e: Endpoint, ms: seq<Message>)
    requires e in s.connections && Key(e) !in s.excluded
    requires forall i :: 0 <= i < |ms| ==> ms[i].src == e
    ensures EmitAll(s, ms) == if ms == [] then s else Extended(s, e, ms)
    decreases |ms|
  {
    if ms != [] {
      var before, m := ms[..|ms| - 1], ms[|ms| - 1];
      assert ms == before + [m];
      Replay(s, e, before);
      if before == [] {
        assert ms == [m];
      } else {
        ExtendedTwice(s, e, before, m);
      }
    }
  }

  function Extended(s: State, e: Endpoint, ms: seq<Message>): State
    requires e in s.connections
  {
    State(s.buffers[Key(e) := Buffered(s, Key(e)) + ms], s.excluded, s.connections[e := s.connections[e] + ms])
  }

  lemma ExtendedTwice(s: State, e: Endpoint, ms: seq<Message>, m: Message)
    requires e in s.connections && Key(e) !in s.excluded && m.src == e
    ensures Emit(Extended(s, e, ms), m) == Extended(s, e, ms + [m])
  {
    assert s.connections[e] + ms + [m] == s.connections[e] + (ms + [m]);
    assert Buffered(s, Key(e)) + ms + [m] == Buffered(s, Key(e)) + (ms + [m]);
  }

  lemma ResolveEffect(s: State, e: Endpoint, held: seq<Message>)
    requires e in s.connections && s.connections[e] == [] && Key(e) !in s.excluded
    requires if held == [] then Key(e) !in s.buffers else Key(e) in s.buffers && s.buffers[Key(e)] == held
    requires forall i :: 0 <= i < |held| ==> held[i].src == e
    ensures Resolve(s, e) == State(s.buffers - {Key(e)}, s.excluded + {Key(e)}, s.connections[e := held])
  {
    if held == [] {
      assert s.buffers - {Key(e)} == s.buffers;
      assert s.connections[e := held] == s.connections;
    } else {
      Replay(s, e, held);
      assert [] + held == held;
    }
  }

  lemma CreateSorted(s: State, c: Endpoint, e: Endpoint, v: View, w: View, es: set<Endpoint>)
    requires Members(es) && c in es && e in es
    requires Sorted(s, c, w) && Sorted(s, e, v) && (c == e ==> v == w)
    ensures Sorted(Step(s, Create(c)), e, ViewStep(v, Create(c), e))
  {
    if Key(c) == Key(e) {
      KeyInjective(es, c, e);
    }
    if w.Waiting? {
      ResolveEffect(s.(connections := s.connections[c := []]), c, w.held);
    }
  }

  lemma ArriveSorted(s: State, m: Message, e: Endpoint, v: View, es: set<Endpoint>)
    requires Members(es) && m.src in es && e in es && Sorted(s, e, v)
    ensures Sorted(Emit(s, m), e, ViewStep(v, Arrive(m), e))
  {
    if Key(m.src) == Key(e) {
      KeyInjective(es, m.src, e);
    }
  }

  /** Every endpoint's buffer and connection are, at every moment, what its view says. */
  lemma {:induction false} EveryEndpointSorted(actions: seq<Action>, es: set<Endpoint>)
    requires Members(es) && Involves(actions, es)
    ensures forall e :: e in es ==> Sorted(Run(actions), e, ViewOf(actions, e))
    decreases |actions|
  {
    if actions != [] {
      var before, a := actions[..|actions| - 1], actions[|actions| - 1];
      assert forall i :: 0 <= i < |before| ==> Who(before[i]) == Who(actions[i]);
      assert Who(a) in es;
      EveryEndpointSorted(before, es);
      var s := Run(before);
      forall e | e in es
        ensures Sorted(Run(actions), e, ViewOf(actions, e))
      {
        match a
        case Arrive(m) => ArriveSorted(s, m, e, ViewOf(before, e), es);
        case Create(c) => CreateSorted(s, c, e, ViewOf(before, e), ViewOf(before, c), es);
        case Close(_) =>
      }
    }
  }

  lemma {:induction false} ViewWithoutClose(actions: seq<Action>, e: Endpoint)
    requires Close(e) !in actions
    ensures var messages := From(actions, e);
            ViewOf(actions, e) == if Create(e) in actions then Connected(messages) else Waiting(messages)
    decreases |actions|
  {
    if actions != [] {
      var before, a := actions[..|actions| - 1], actions[|actions| - 1];
      assert actions == before + [a];
      ViewWithoutClose(before, e);
    }
  }

  /**
   The first connection to an endpoint sees every message from it exactly once and in arrival
   order, those from before its creation first.
   */
  lemma FirstConnectionSeesAll(actions: seq<Action>, es: set<Endpoint>, e: Endpoint)
    requires Members(es) && Involves(actions, es) && e in es
    requires Create(e) in actions && Close(e) !in actions
    ensures e in Run(actions).connections && Run(actions).connections[e] == From(actions, e)
  {
    EveryEndpointSorted(actions, es);
    ViewWithoutClose(actions, e);
    assert Sorted(Run(actions), e, ViewOf(actions, e));
  }

  /** What arrives after a first connection has closed and before the next one exists reaches neither. */
  lemma LaterConnectionMisses(actions: seq<Action>, es: set<Endpoint>, e: Endpoint, m: Message)
    requires Members(es) && Involves(actions, es) && e in es && m.src == e
    requires ViewOf(actions, e).Connected?
    ensures var s := Run(actions + [Close(e)] + [Arrive(m)] + [Create(e)]);
            e in s.connections && s.connections[e] == [] && Key(e) !in s.buffers
  {
    var a1 := actions + [Close(e)];
    var a2 := a1 + [Arrive(m)];
    var a3 := a2 + [Create(e)];
    assert a1[..|a1| - 1] == actions && a2[..|a2| - 1] == a1 && a3[..|a3| - 1] == a2;
    assert Who(Close(e)) in es && Who(Arrive(m)) in es && Who(Create(e)) in es;
    EveryEndpointSorted(a3, es);
    assert ViewOf(a1, e) == Gone && ViewOf(a2, e) == Gone;
    assert Sorted(Run(a3), e, ViewOf(a3, e));
  }

  // ---- The class --------------------------------------------------------------------------

  class MessageBuffer {
    var indicateMessageBuffer: map<string, seq<Message>>
    var excludeConnectionIndicateBuffering: set<string>
    var connections: map<Endpoint, seq<Message>>

    ghost function Model(): State
      reads this
    {
      State(indicateMessageBuffer, excludeConnectionIndicateBuffering, connections)
    }

    constructor ()
      ensures Model() == Run([])
    {
      indicateMessageBuffer, excludeConnectionIndicateBuffering, connections := map[], {}, map[];
    }

    method EmitMessage(m: Message)
      modifies this
      ensures Model() == Emit(old(Model()), m)
    {
      var key := Key(m.src);
      if key !in excludeConnectionIndicateBuffering {
        if key !in indicateMessageBuffer {
          indicateMessageBuffer := indicateMessageBuffer[key := []];
        }
        indicateMessageBuffer := indicateMessageBuffer[key := indicateMessageBuffer[key] + [m]];
        assert indicateMessageBuffer == old(indicateMessageBuffer)[key := Buffered(old(Model()), key) + [m]];
      }
      if m.src in connections {
        connections := connections[m.src := connections[m.src] + [m]];
      }
    }

    /** The loop visits the entries there were when it started; each visit appends one. */
    method ResolveMessagingBuffer(e: Endpoint)
      requires e in connections
      requires Key(e) in excludeConnectionIndicateBuffering ==> Key(e) !in indicateMessageBuffer
      requires forall i :: 0 <= i < |Buffered(Model(), Key(e))| ==> Buffered(Model(), Key(e))[i].src == e
      modifies this
      ensures Model() == Resolve(old(Model()), e)
    {
      var key := Key(e);
      if key in indicateMessageBuffer && |indicateMessageBuffer[key]| > 0 {
        assert indicateMessageBuffer[key] == Buffered(Model(), key);
        ReplayBuffered(e);
        indicateMessageBuffer := indicateMessageBuffer - {key};
      }
      excludeConnectionIndicateBuffering := excludeConnectionIndicateBuffering + {key};
    }

    method ReplayBuffered(e: Endpoint)
      requires e in connections && Key(e) !in excludeConnectionIndicateBuffering
      requires Key(e) in indicateMessageBuffer
      requires forall i :: 0 <= i < |indicateMessageBuffer[Key(e)]| ==> indicateMessageBuffer[Key(e)][i].src == e
      modifies this
      ensures Model() == EmitAll(old(Model()), old(indicateMessageBuffer[Key(e)]))
    {
      var key := Key(e);
      var length := |indicateMessageBuffer[key]|;
      ghost var s, held := Model(), indicateMessageBuffer[key];
      for i := 0 to length
        invariant Model() == EmitAll(s, held[..i])
        invariant key in indicateMessageBuffer && indicateMessageBuffer[key] == held + held[..i]
      {
        Replay(s, e, held[..i]);
        NextReplayed(s, e, held, i);
        EmitMessage(indicateMessageBuffer[key][i]);
      }
      assert held[..length] == held;
    }
  }

  /** The next message to replay, on a list that grew by those replayed. */
  lemma NextReplayed(s: State, e: Endpoint, held: seq<Message>, i: nat)
    requires e in s.connections && Key(e) !in s.excluded && Buffered(s, Key(e)) == held
    requires i < |held| && forall j :: 0 <= j < |held| ==> held[j].src == e
    ensures (held + held[..i])[i] == held[i]
    ensures EmitAll(s, held[..i + 1]) == Emit(EmitAll(s, held[..i]), held[i])
    ensures Buffered(EmitAll(s, held[..i + 1]), Key(e)) == held + held[..i + 1]
    ensures Key(e) in EmitAll(s, held[..i + 1]).buffers
  {
    assert held[..i + 1][..i] == held[..i];
    Replay(s, e, held[..i + 1]);
  }
}
