/**
 Chunked signaling messages.  A payload is the JSON text of a message, as UTF-16 code units; a
 transport delivers each message's chunks in order, among those of other messages.
 */
module Chunks {
  import opened Util

  type CodeUnit = c: int | 0 <= c < 0x10000
  type Payload = seq<CodeUnit>
  type MessageId = nat

  const CHUNK_SIZE: nat := 20480

  /** `SignalingMessageChunk` */
  datatype Chunk = Chunk(id: MessageId, length: nat, offset: nat, chunk: Payload)

  /** What `.` does not match in a regular expression. */
  predicate IsTerminator(c: CodeUnit)
  {
    c == 0x0A || c == 0x0D || c == 0x2028 || c == 0x2029
  }

  predicate HasTerminator(p: Payload)
  {
    exists i :: 0 <= i < |p| && IsTerminator(p[i])
  }

  function Plain(p: Payload): Payload
  {
    if p == [] then [] else if IsTerminator(p[0]) then Plain(p[1..]) else [p[0]] + Plain(p[1..])
  }

  /** How much `.{1,limit}` matches at the start. */
  function MatchLength(p: Payload, limit: nat): (n: nat)
    ensures n <= |p| && n <= limit
    ensures forall i :: 0 <= i < n ==> !IsTerminator(p[i])
    ensures n == |p| || n == limit || IsTerminator(p[n])
  {
    if p == [] || limit == 0 || IsTerminator(p[0]) then 0 else 1 + MatchLength(p[1..], limit - 1)
  }

  /** `payload.match(/.{1,20480}/g) ?? []` */
  function Split(p: Payload): seq<Payload>
    decreases |p|
  {
    if p == [] then []
    else if IsTerminator(p[0]) then Split(p[1..])
    else [p[..MatchLength(p, CHUNK_SIZE)]] + Split(p[MatchLength(p, CHUNK_SIZE)..])
  }

  /** `join('')` */
  function Join(chunks: seq<Payload>): Payload
  {
    if chunks == [] then [] else chunks[0] + Join(chunks[1..])
  }

  /** The messages that `send` puts on the wire. */
  function Encode(id: MessageId, payload: Payload): seq<Chunk>
  {
    if |payload| > CHUNK_SIZE then
      var split := Split(payload);
      seq(|split|, i requires 0 <= i < |split| => Chunk(id, |split| - 1, i, split[i]))
    else
      [Chunk(id, 0, 0, payload)]
  }

  type Buffer = map<MessageId, seq<Payload>>

  datatype Emission = Emission(id: MessageId, payload: Payload)

  /** The listener of `onRequested`. */
  function Listen(b: Buffer, m: Chunk): (Buffer, seq<Emission>)
  {
    if m.length == 0 then
      (b, [Emission(m.id, m.chunk)])
    else
      var chunks := (if m.id in b then b[m.id] else []) + [m.chunk];
      if m.length == m.offset then (b - {m.id}, [Emission(m.id, Join(chunks))])
      else (b[m.id := chunks], [])
  }

  function ListenAll(wire: seq<Chunk>): (Buffer, seq<Emission>)
    decreases |wire|
  {
    if wire == [] then (map[], []) else
    var (b, emitted) := ListenAll(wire[..|wire| - 1]);
    var (b', more) := Listen(b, wire[|wire| - 1]);
    (b', emitted + more)
  }

  // ---- Splitting and joining --------------------------------------------------------------

  lemma {:induction false} PlainConcat(p: Payload, q: Payload)
    ensures Plain(p + q) == Plain(p) + Plain(q)
  {
    if p == [] {
      assert p + q == q;
    } else {
      assert (p + q)[1..] == p[1..] + q;
      PlainConcat(p[1..], q);
    }
  }

  lemma {:induction false} PlainIdentityIff(p: Payload)
    ensures |Plain(p)| <= |p|
    ensures Plain(p) == p <==> !HasTerminator(p)
  {
    if p != [] {
      PlainIdentityIff(p[1..]);
      if IsTerminator(p[0]) {
        assert |Plain(p)| < |p|;
      } else {
        assert HasTerminator(p) ==> HasTerminator(p[1..]) by {
          if HasTerminator(p) {
            var i :| 0 <= i < |p| && IsTerminator(p[i]);
            assert p[1..][i - 1] == p[i];
          }
        }
        if HasTerminator(p[1..]) {
          var i :| 0 <= i < |p[1..]| && IsTerminator(p[1..][i]);
          assert p[i + 1] == p[1..][i];
        }
        assert p == [p[0]] + p[1..];
        assert Plain(p)[1..] == Plain(p[1..]);
      }
    }
  }

  /** Splitting and joining drops the line terminators and nothing else. */
  lemma {:induction false} JoinSplit(p: Payload)
    ensures Join(Split(p)) == Plain(p)
    decreases |p|
  {
    if p != [] {
      if IsTerminator(p[0]) {
        JoinSplit(p[1..]);
      } else {
        var n := MatchLength(p, CHUNK_SIZE);
        assert Split(p)[1..] == Split(p[n..]);
        JoinSplit(p[n..]);
        PlainConcat(p[..n], p[n..]);
        assert p[..n] + p[n..] == p;
        PlainIdentityIff(p[..n]);
      }
    }
  }

  lemma {:induction false} ChunksFit(p: Payload)
    ensures forall i :: 0 <= i < |Split(p)| ==> 0 < |Split(p)[i]| <= CHUNK_SIZE
    decreases |p|
  {
    if p != [] {
      ChunksFit(p[if IsTerminator(p[0]) then 1 else MatchLength(p, CHUNK_SIZE)..]);
    }
  }

  /**
   A payload that is too long and holds no line terminator is never sent in the length-0 form,
   which stands for a whole message.
   */
  lemma ChunkedIsNotWhole(p: Payload)
    requires |p| > CHUNK_SIZE && !HasTerminator(p)
    ensures |Split(p)| >= 2
  {
    JoinSplit(p);
    PlainIdentityIff(p);
    ChunksFit(p);
    JoinLength(Split(p));
  }

  lemma {:induction false} JoinLength(chunks: seq<Payload>)
    requires forall i :: 0 <= i < |chunks| ==> |chunks[i]| <= CHUNK_SIZE
    ensures |Join(chunks)| <= CHUNK_SIZE * |chunks|
  {
    if chunks != [] {
      JoinLength(chunks[1..]);
    }
  }

  // ---- Interleaved messages ---------------------------------------------------------------

  /** The chunks of one message, in wire order. */
  function Only(wire: seq<Chunk>, id: MessageId): seq<Chunk>
    decreases |wire|
  {
    if wire == [] then [] else
    var before, m := Only(wire[..|wire| - 1], id), wire[|wire| - 1];
    if m.id == id then before + [m] else before
  }

  function Emitted(emissions: seq<Emission>, id: MessageId): seq<Payload>
    decreases |emissions|
  {
    if emissions == [] then [] else
    var before, e := Emitted(emissions[..|emissions| - 1], id), emissions[|emissions| - 1];
    if e.id == id then before + [e.payload] else before
  }

  /** What the other side should receive for a payload. */
  function Delivered(payload: Payload): seq<Payload>
  {
    if |payload| <= CHUNK_SIZE then [payload]
    else if Plain(payload) == [] then []
    else [Plain(payload)]
  }

  /** The wire carries some chunks of each message sent, in order, and nothing else. */
  ghost predicate Carries(wire: seq<Chunk>, sent: map<MessageId, Payload>)
  {
    && (forall i :: 0 <= i < |wire| ==> wire[i].id in sent)
    && (forall id :: id in sent ==> Only(wire, id) <= Encode(id, sent[id]))
  }

  function Texts(chunks: seq<Chunk>): seq<Payload>
  {
    seq(|chunks|, i requires 0 <= i < |chunks| => chunks[i].chunk)
  }

  /** The state of one message, by how many of its chunks have arrived. */
  ghost predicate InProgress(b: Buffer, emissions: seq<Emission>, id: MessageId, messages: seq<Chunk>, k: nat,
                             payload: Payload)
    requires k <= |messages|
  {
    && (id in b <==> 0 < k < |messages|)
    && (id in b ==> b[id] == Texts(messages[..k]))
    && Emitted(emissions, id) == if k == |messages| then Delivered(payload) else []
  }

  lemma {:induction false} EmittedConcat(xs: seq<Emission>, ys: seq<Emission>, id: MessageId)
    ensures Emitted(xs + ys, id) == Emitted(xs, id) + Emitted(ys, id)
    decreases |ys|
  {
    if ys == [] {
      assert xs + ys == xs;
    } else {
      assert (xs + ys)[..|xs + ys| - 1] == xs + ys[..|ys| - 1];
      EmittedConcat(xs, ys[..|ys| - 1], id);
    }
  }

  lemma EmittedOne(e: Emission, id: MessageId)
    ensures Emitted([e], id) == if e.id == id then [e.payload] else []
  {
    assert [e][..0] == [];
  }

  lemma EncodeTexts(id: MessageId, payload: Payload)
    requires |payload| > CHUNK_SIZE
    ensures Texts(Encode(id, payload)) == Split(payload)
    ensures Delivered(payload) == if Split(payload) == [] then [] else [Join(Split(payload))]
  {
    JoinSplit(payload);
    ChunksFit(payload);
    EmptyIff(Split(payload));
  }

  lemma EmptyIff(chunks: seq<Payload>)
    requires forall i :: 0 <= i < |chunks| ==> |chunks[i]| > 0
    ensures Join(chunks) == [] <==> chunks == []
  {
    if chunks != [] {
      assert |Join(chunks)| >= |chunks[0]|;
    }
  }

  /** The next chunk of a message moves that message on. */
  lemma ListenProgress(b: Buffer, emissions: seq<Emission>, id: MessageId, k: nat, payload: Payload)
    requires k < |Encode(id, payload)|
    requires InProgress(b, emissions, id, Encode(id, payload), k, payload)
    ensures var (b', more) := Listen(b, Encode(id, payload)[k]);
            InProgress(b', emissions + more, id, Encode(id, payload), k + 1, payload)
  {
    var messages := Encode(id, payload);
    var (b', more) := Listen(b, messages[k]);
    if |payload| > CHUNK_SIZE {
      ListenChunk(b, id, k, payload);
    }
    if more == [] {
      assert emissions + more == emissions;
    } else {
      assert more == [more[0]];
      EmittedHere(emissions, more[0], id);
    }
  }

  /** What the next chunk of a long message does to its buffer entry, and what it emits. */
  lemma ListenChunk(b: Buffer, id: MessageId, k: nat, payload: Payload)
    requires |payload| > CHUNK_SIZE && k < |Encode(id, payload)|
    requires id in b <==> 0 < k
    requires id in b ==> b[id] == Texts(Encode(id, payload)[..k])
    ensures var (messages, (b', more)) := (Encode(id, payload), Listen(b, Encode(id, payload)[k]));
            if k + 1 < |messages| then id in b' && b'[id] == Texts(messages[..k + 1]) && more == []
            else var whole := Join(Split(payload));
                 id !in b' && more == [Emission(id, whole)] && Delivered(payload) == [whole]
  {
    var messages := Encode(id, payload);
    var chunks := (if id in b then b[id] else []) + [messages[k].chunk];
    NextText(messages, k);
    assert chunks == Texts(messages[..k + 1]);
    if k + 1 == |messages| {
      assert messages[..k + 1] == messages;
      EncodeTexts(id, payload);
      if k == 0 {
        OnlyChunk(Split(payload));
      }
    }
  }

  lemma NextText(messages: seq<Chunk>, k: nat)
    requires k < |messages|
    ensures Texts(messages[..k + 1]) == Texts(messages[..k]) + [messages[k].chunk]
    ensures k == 0 ==> Texts(messages[..k]) == []
  {
  }

  lemma OnlyChunk(chunks: seq<Payload>)
    requires |chunks| == 1
    ensures Join(chunks) == chunks[0]
  {
    assert chunks[1..] == [] && Join(chunks) == chunks[0] + [];
  }

  lemma EmittedHere(emissions: seq<Emission>, e: Emission, id: MessageId)
    requires e.id == id
    ensures Emitted(emissions + [e], id) == Emitted(emissions, id) + [e.payload]
  {
    EmittedConcat(emissions, [e], id);
    EmittedOne(e, id);
  }

  lemma EmittedElsewhere(emissions: seq<Emission>, e: Emission, id: MessageId)
    requires e.id != id
    ensures Emitted(emissions + [e], id) == Emitted(emissions, id)
  {
    EmittedConcat(emissions, [e], id);
    EmittedOne(e, id);
  }

  /** A chunk of another message changes nothing. */
  lemma ListenOther(b: Buffer, emissions: seq<Emission>, m: Chunk, id: MessageId)
    requires m.id != id
    ensures var (b', more) := Listen(b, m);
            && (id in b' <==> id in b) && (id in b ==> b'[id] == b[id])
            && Emitted(emissions + more, id) == Emitted(emissions, id)
  {
    var (_, more) := Listen(b, m);
    if more == [] {
      assert emissions + more == emissions;
    } else {
      EmittedElsewhere(emissions, more[0], id);
    }
  }

  /** The state of every message sent. */
  ghost predicate AllInProgress(b: Buffer, emissions: seq<Emission>, wire: seq<Chunk>, sent: map<MessageId, Payload>)
    requires Carries(wire, sent)
  {
    && b.Keys <= sent.Keys
    && forall id :: id in sent ==>
         InProgress(b, emissions, id, Encode(id, sent[id]), |Only(wire, id)|, sent[id])
  }

  lemma NextChunk(before: seq<Chunk>, m: Chunk, messages: seq<Chunk>)
    requires before + [m] <= messages
    ensures |before| < |messages| && messages[|before|] == m
  {
    assert (before + [m])[|before|] == m;
  }

  lemma ListenStep(b: Buffer, emissions: seq<Emission>, before: seq<Chunk>, m: Chunk, sent: map<MessageId, Payload>)
    requires Carries(before, sent) && Carries(before + [m], sent)
    requires AllInProgress(b, emissions, before, sent)
    ensures var (b', more) := Listen(b, m);
            AllInProgress(b', emissions + more, before + [m], sent)
  {
    var wire := before + [m];
    assert wire[|before|] == m;
    KeysStay(b, m, sent.Keys);
    forall id | id in sent
      ensures var (b', more) := Listen(b, m);
              InProgress(b', emissions + more, id, Encode(id, sent[id]), |Only(wire, id)|, sent[id])
    {
      OnlyOneMore(before, m, id);
      ListenFor(b, emissions, Only(before, id), m, id, sent[id]);
    }
  }

  lemma KeysStay(b: Buffer, m: Chunk, keys: set<MessageId>)
    requires b.Keys <= keys && m.id in keys
    ensures Listen(b, m).0.Keys <= keys
  {
  }

  lemma OnlyOneMore(before: seq<Chunk>, m: Chunk, id: MessageId)
    ensures Only(before + [m], id) == Only(before, id) + (if m.id == id then [m] else [])
  {
    assert (before + [m])[..|before|] == before;
  }

  /** What one chunk means for one message, of which those in `arrived` came before it. */
  lemma ListenFor(b: Buffer, emissions: seq<Emission>, arrived: seq<Chunk>, m: Chunk, id: MessageId, payload: Payload)
    requires arrived + (if m.id == id then [m] else []) <= Encode(id, payload)
    requires |arrived| <= |Encode(id, payload)|
    requires InProgress(b, emissions, id, Encode(id, payload), |arrived|, payload)
    ensures var ((b', more), k) := (Listen(b, m), |arrived| + if m.id == id then 1 else 0);
            k <= |Encode(id, payload)| && InProgress(b', emissions + more, id, Encode(id, payload), k, payload)
  {
    if m.id == id {
      NextChunk(arrived, m, Encode(id, payload));
      ListenProgress(b, emissions, id, |arrived|, payload);
    } else {
      ListenOther(b, emissions, m, id);
    }
  }

  lemma CarriesPrefix(before: seq<Chunk>, m: Chunk, sent: map<MessageId, Payload>)
    requires Carries(before + [m], sent)
    ensures Carries(before, sent)
  {
    var wire := before + [m];
    assert wire[..|wire| - 1] == before;
    assert forall i :: 0 <= i < |before| ==> before[i] == wire[i];
    assert forall id :: id in sent ==> Only(before, id) <= Only(wire, id);
  }

  lemma NothingYet(id: MessageId, payload: Payload)
    ensures InProgress(map[], [], id, Encode(id, payload), 0, payload)
  {
    if |payload| > CHUNK_SIZE {
      EncodeTexts(id, payload);
    }
  }

  /**
   Under any interleaving that keeps the order within each message, a message has been emitted
   exactly once as soon as its last chunk has arrived and not at all before, and the buffer holds
   exactly the chunks of the messages that are partly there.
   */
  lemma {:induction false} Reassembles(wire: seq<Chunk>, sent: map<MessageId, Payload>)
    requires Carries(wire, sent)
    ensures AllInProgress(ListenAll(wire).0, ListenAll(wire).1, wire, sent)
    decreases |wire|
  {
    if wire == [] {
      forall id | id in sent
        ensures InProgress(map[], [], id, Encode(id, sent[id]), 0, sent[id])
      {
        NothingYet(id, sent[id]);
      }
    } else {
      var before, m := wire[..|wire| - 1], wire[|wire| - 1];
      assert wire == before + [m];
      CarriesPrefix(before, m, sent);
      Reassembles(before, sent);
      ListenStep(ListenAll(before).0, ListenAll(before).1, before, m, sent);
    }
  }

  /**
   When every message has arrived completely, each was emitted once and nothing is buffered; a
   message arrives intact exactly if it is short enough to go whole or holds no line terminator.
   */
  lemma RoundTrip(wire: seq<Chunk>, sent: map<MessageId, Payload>)
    requires forall i :: 0 <= i < |wire| ==> wire[i].id in sent
    requires forall id :: id in sent ==> Only(wire, id) == Encode(id, sent[id])
    ensures var (b, emissions) := ListenAll(wire);
            && b == map[]
            && forall id :: id in sent ==>
                 && Emitted(emissions, id) == Delivered(sent[id])
                 && (Emitted(emissions, id) == [sent[id]] <==>
                       |sent[id]| <= CHUNK_SIZE || !HasTerminator(sent[id]))
  {
    Reassembles(wire, sent);
    var (b, emissions) := ListenAll(wire);
    forall id | id in sent
      ensures id !in b
      ensures Emitted(emissions, id) == Delivered(sent[id])
      ensures Emitted(emissions, id) == [sent[id]] <==> |sent[id]| <= CHUNK_SIZE || !HasTerminator(sent[id])
    {
      assert InProgress(b, emissions, id, Encode(id, sent[id]), |Only(wire, id)|, sent[id]);
      PlainIdentityIff(sent[id]);
    }
    assert b.Keys == {};
  }

  // ---- The class --------------------------------------------------------------------------

  class SignalingSession {
    var chunkedMessageBuffer: Buffer
    var onMessage: seq<Emission>

    constructor ()
      ensures (chunkedMessageBuffer, onMessage) == ListenAll([])
    {
      chunkedMessageBuffer, onMessage := map[], [];
    }

    method OnRequested(m: Chunk)
      modifies this
      ensures chunkedMessageBuffer == Listen(old(chunkedMessageBuffer), m).0
      ensures onMessage == old(onMessage) + Listen(old(chunkedMessageBuffer), m).1
    {
      if m.length == 0 {
        onMessage := onMessage + [Emission(m.id, m.chunk)];
      } else {
        var buffered := if m.id in chunkedMessageBuffer then chunkedMessageBuffer[m.id] else [];
        chunkedMessageBuffer := chunkedMessageBuffer[m.id := buffered + [m.chunk]];
        if m.length == m.offset {
          var message := Join(chunkedMessageBuffer[m.id]);
          chunkedMessageBuffer := chunkedMessageBuffer - {m.id};
          onMessage := onMessage + [Emission(m.id, message)];
        }
      }
    }

    /** `send`: the requests handed to the transport, in order. */
    method Send(id: MessageId, payload: Payload) returns (requests: seq<Chunk>)
      ensures requests == Encode(id, payload)
    {
      requests := [];
      if |payload| > CHUNK_SIZE {
        var split := Split(payload);
        var offset := 0;
        while offset < |split|
          invariant 0 <= offset <= |split|
          invariant requests == Encode(id, payload)[..offset]
        {
          requests := requests + [Chunk(id, |split| - 1, offset, split[offset])];
          offset := offset + 1;
        }
      } else {
        requests := [Chunk(id, 0, 0, payload)];
      }
    }
  }
}
