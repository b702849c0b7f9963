/**
 P2P offer/answer negotiation between a `Sender` and a `Receiver` over two one-way links.

 An SDP is reduced to the set of mids of its m-lines that are not inactive.  Asynchronous
 functions are cut at their `await`s; each piece is one step.
 */
module Negotiation {
  import opened Util

  type Mid = nat

  datatype Kind = Media | DataChannel

  /** A publication is known by its id, which also fixes its content type. */
  datatype Publication = Publication(id: string, kind: Kind)

  /** An entry of `_pendingPublications`. */
  datatype Request = Add(publication: Publication) | Remove(publication: Publication)

  datatype Signaling = Stable | HaveLocalOffer | HaveRemoteOffer

  /** `senderProduceMessage` and `senderUnproduceMessage`. */
  datatype Op = Produce(publication: Publication, mid: Mid) | Unproduce(publication: Publication)
  datatype Offer = Offer(op: Op, active: set<Mid>)

  /** Where the sender's asynchronous work is. */
  datatype Work =
    | NoWork
    | Preparing(op: Op)    // `createOffer` and `setLocalDescription` are awaited
    | Ready(offer: Offer)  // the local description is set, the message is not sent yet
    | Answered             // the answer is applied, `_isNegotiating` is not cleared yet

  datatype SenderState = SenderState(
    publications: set<Publication>,
    tracks: map<Publication, Mid>,  // `transceivers`
    channels: set<Publication>,     // `datachannels`
    dataMid: Option<Mid>,           // the application m-line, once there is one
    lines: set<Mid>,                // the m-lines of the peer connection that are not inactive
    nextMid: Mid,
    pending: seq<Request>,
    negotiating: bool,
    signaling: Signaling,
    work: Work,
    answering: bool,          // a `_handleReceiverAnswer` has not returned yet
    requested: seq<Request>,  // history: the requests that were not ignored
    started: seq<Request>)    // history: the requests that started a negotiation

  datatype Handling =
    | Free
    | Deferred(offer: Offer)  // waiting for the signaling state to be stable
    | Applying(offer: Offer)
    | Answering
    | Replying
    | Returning               // the answer is on the link, its sending is still awaited

  datatype ReceiverState = ReceiverState(
    info: map<Publication, Mid>,  // `_publicationInfo`
    signaling: Signaling,
    handling: Handling,
    refused: bool)       // `_validateRemoteOffer` has thrown

  datatype World = World(sender: SenderState, receiver: ReceiverState, toReceiver: seq<Offer>, toSender: nat)

  // ---- The sender -------------------------------------------------------------------------

  predicate Busy(s: SenderState)
  {
    s.negotiating || s.signaling != Stable
  }

  /** `createDataChannel`; the first one brings the application m-line. */
  function OpenChannel(s: SenderState, p: Publication): SenderState
  {
    var s := s.(channels := s.channels + {p});
    if s.dataMid.Some? then s.(work := Preparing(Produce(p, s.dataMid.value)))
    else s.(dataMid := Some(s.nextMid), lines := s.lines + {s.nextMid},
            nextMid := s.nextMid + 1, work := Preparing(Produce(p, s.nextMid)))
  }

  /** `addTransceiver`, with an m-line of its own. */
  function OpenTrack(s: SenderState, p: Publication): SenderState
  {
    s.(tracks := s.tracks[p := s.nextMid], lines := s.lines + {s.nextMid},
       nextMid := s.nextMid + 1, work := Preparing(Produce(p, s.nextMid)))
  }

  /** `transceiver.stop`; its m-line becomes inactive. */
  function StopTrack(s: SenderState, p: Publication): SenderState
  {
    if p in s.tracks then s.(lines := s.lines - {s.tracks[p]}, tracks := s.tracks - {p}) else s
  }

  function StartAdd(s: SenderState, p: Publication): SenderState
  {
    var s := s.(negotiating := true, publications := s.publications + {p}, started := s.started + [Add(p)]);
    match p.kind
    case Media => OpenTrack(s, p)
    case DataChannel => OpenChannel(s, p)
  }

  function StartRemove(s: SenderState, p: Publication): SenderState
  {
    var s := s.(negotiating := true, work := Preparing(Unproduce(p)), started := s.started + [Remove(p)]);
    match p.kind
    case Media => StopTrack(s, p)
    case DataChannel => s.(channels := s.channels - {p})
  }

  /** `Sender.add` up to its first `await`. */
  function TryAdd(s: SenderState, p: Publication): SenderState
  {
    if Busy(s) then s.(pending := s.pending + [Add(p)]) else StartAdd(s, p)
  }

  /** `Sender.remove` up to its first `await`. */
  function TryRemove(s: SenderState, p: Publication): SenderState
  {
    if p !in s.publications then s else
    var s := s.(publications := s.publications - {p});
    if Busy(s) then s.(pending := s.pending + [Remove(p)]) else StartRemove(s, p)
  }

  function Do(s: SenderState, r: Request): SenderState
  {
    match r
    case Add(p) => TryAdd(s, p)
    case Remove(p) => TryRemove(s, p)
  }

  /** A call by the application; a removal of an unknown publication is ignored. */
  function Ask(s: SenderState, r: Request): SenderState
  {
    if r.Remove? && r.publication !in s.publications then s
    else Do(s.(requested := s.requested + [r]), r)
  }

  /** The end of `_handleReceiverAnswer`; what it starts must be sent before it returns. */
  function Resume(s: SenderState): SenderState
  {
    var s := Resolve(s.(negotiating := false, work := NoWork));
    s.(answering := s.work.Preparing?)
  }

  /** `_resolvePendingSender` */
  function Resolve(s: SenderState): SenderState
  {
    if s.pending == [] then s else Do(s.(pending := s.pending[1..]), s.pending[0])
  }

  // ---- The receiver -----------------------------------------------------------------------

  function Applied(info: map<Publication, Mid>, op: Op): map<Publication, Mid>
  {
    match op
    case Produce(p, mid) => info[p := mid]
    case Unproduce(p) => info - {p}
  }

  /** `_validateRemoteOffer`: every m-line that is not inactive has a publication. */
  predicate Valid(active: set<Mid>, info: map<Publication, Mid>)
  {
    active <= info.Values
  }

  function StartHandling(r: ReceiverState, o: Offer): ReceiverState
  {
    if r.signaling != Stable then
      r.(handling := Deferred(o))
    else
      var r := r.(info := Applied(r.info, o.op));
      if o.op.Produce? && !Valid(o.active, r.info)
      then r.(refused := true)
      else r.(handling := Applying(o))
  }

  // ---- Steps ------------------------------------------------------------------------------

  datatype Step =
    | Call(request: Request)  // the application adds or removes a publication
    | SetOffer
    | SendOffer
    | Receive
    | ApplyOffer
    | SetAnswer
    | SendAnswer
    | ApplyAnswer
    | Finish
    | ReceiverReturns  // the sending of an answer resolves
    | SenderReturns    // the sending of an offer resolves that an answer's handler awaits

  predicate Enabled(w: World, step: Step)
  {
    match step
    case Call(_) => true
    case SetOffer => w.sender.work.Preparing?
    case SendOffer => w.sender.work.Ready?
    case Receive => w.toReceiver != [] && w.receiver.handling.Free?
    case ApplyOffer => w.receiver.handling.Applying?
    case SetAnswer => w.receiver.handling.Answering?
    case SendAnswer => w.receiver.handling.Replying?
    case ApplyAnswer => w.toSender > 0 && w.sender.work.NoWork? && !w.sender.answering
    case Finish => w.sender.work.Answered?
    case ReceiverReturns => w.receiver.handling.Returning?
    case SenderReturns => w.sender.answering && w.sender.work.NoWork?
  }

  function Next(w: World, step: Step): World
    requires Enabled(w, step)
  {
    var (s, r) := (w.sender, w.receiver);
    match step
    case Call(request) => w.(sender := Ask(s, request))
    case SetOffer =>
      w.(sender := s.(signaling := HaveLocalOffer, work := Ready(Offer(s.work.op, s.lines))))
    case SendOffer => w.(sender := s.(work := NoWork), toReceiver := w.toReceiver + [s.work.offer])
    case Receive => w.(receiver := StartHandling(r, w.toReceiver[0]), toReceiver := w.toReceiver[1..])
    case ApplyOffer => w.(receiver := r.(signaling := HaveRemoteOffer, handling := Answering))
    case SetAnswer => w.(receiver := r.(signaling := Stable, handling := Replying))
    case SendAnswer => w.(receiver := r.(handling := Returning), toSender := w.toSender + 1)
    case ApplyAnswer =>
      w.(sender := s.(signaling := Stable, work := Answered, answering := true), toSender := w.toSender - 1)
    case Finish => w.(sender := Resume(s))
    case ReceiverReturns => w.(receiver := r.(handling := Free))
    case SenderReturns => w.(sender := s.(answering := false))
  }

  const INITIAL: World := World(
    SenderState({}, map[], {}, None, {}, 0, [], false, Stable, NoWork, false, [], []),
    ReceiverState(map[], Stable, Free, false), [], 0)

  /** `w'` is what the enabled steps lead to from `w`. */
  ghost predicate Leads(w: World, steps: seq<Step>, w': World)
    decreases |steps|
  {
    if steps == [] then w == w'
    else Enabled(w, steps[0]) && Leads(Next(w, steps[0]), steps[1..], w')
  }

  // ---- Safety: one negotiation at a time --------------------------------------------------

  /** The places a negotiation can be at: in preparation, in flight, at the receiver, answered. */
  function Tokens(w: World): nat
  {
    (if w.sender.work.NoWork? then 0 else 1) + |w.toReceiver|
    + (if w.receiver.handling.Free? || w.receiver.handling.Returning? then 0 else 1) + w.toSender
  }

  /**
   At most one offer is unanswered; `_isNegotiating` holds exactly while a negotiation is under
   way (or was refused); and each side's signaling state is the one its place calls for.  In
   particular the receiver is stable when it takes up a message, and the sender has an offer out
   when it applies an answer.
   */
  ghost predicate Exclusive(w: World)
  {
    var (s, r) := (w.sender, w.receiver);
    && Tokens(w) <= 1
    && (s.negotiating <==> Tokens(w) == 1 || r.refused)
    && (r.refused ==> Tokens(w) == 0)
    && s.signaling == (if r.refused || (Tokens(w) == 1 && !s.work.Preparing? && !s.work.Answered?)
                       then HaveLocalOffer else Stable)
    && r.signaling == (if r.handling.Answering? then HaveRemoteOffer else Stable)
    && !r.handling.Deferred?
  }

  lemma StepExclusive(w: World, step: Step)
    requires Exclusive(w) && Enabled(w, step)
    ensures Exclusive(Next(w, step))
  {
  }

  // ---- Agreement --------------------------------------------------------------------------

  /** What the sender's tracks and data channels mean for the receiver. */
  function Offered(s: SenderState): map<Publication, Mid>
  {
    if s.dataMid.None? then s.tracks else s.tracks + map p | p in s.channels :: s.dataMid.value
  }

  /** The operation the receiver has not applied yet, if there is one. */
  function Unapplied(w: World): Option<Op>
  {
    match w.sender.work
    case Preparing(op) => Some(op)
    case Ready(offer) => Some(offer.op)
    case _ => if w.toReceiver != [] then Some(w.toReceiver[0].op) else None
  }

  /** The m-lines that the offer on its way announces are those of the sender's peer connection. */
  ghost predicate CurrentLines(w: World)
  {
    && (w.sender.work.Ready? ==> w.sender.work.offer.active == w.sender.lines)
    && (forall i :: 0 <= i < |w.toReceiver| ==> w.toReceiver[i].active == w.sender.lines)
  }

  /** The keys of the sender's maps. */
  ghost predicate Kinded(s: SenderState)
  {
    && (s.channels != {} ==> s.dataMid.Some?)
    && (forall p :: p in s.tracks ==> p.kind.Media?)
    && (forall p :: p in s.channels ==> p.kind.DataChannel?)
    && s.publications <= s.tracks.Keys + s.channels
  }

  /** The receiver has, or will have once it applies the one outstanding operation, what is offered. */
  ghost predicate Agreed(w: World)
  {
    && Kinded(w.sender)
    && CurrentLines(w)
    && Offered(w.sender) == (if Unapplied(w).Some? then Applied(w.receiver.info, Unapplied(w).value)
                             else w.receiver.info)
  }

  /** A new state whose operation, once applied by the receiver, makes it know what is offered. */
  ghost predicate Starts(s: SenderState, s': SenderState)
  {
    Kinded(s') && s'.work.Preparing? && Offered(s') == Applied(Offered(s), s'.work.op)
  }

  lemma StartAddMedia(s: SenderState, p: Publication)
    requires Kinded(s) && p.kind.Media?
    ensures Starts(s, StartAdd(s, p))
  {
    assert p !in s.channels;
  }

  lemma StartAddData(s: SenderState, p: Publication)
    requires Kinded(s) && p.kind.DataChannel?
    ensures Starts(s, StartAdd(s, p))
  {
    var s' := StartAdd(s, p);
    assert p !in s.tracks;
    if s.dataMid.None? {
      assert s.channels == {} && s'.channels == {p};
      assert Offered(s') == s.tracks[p := s.nextMid];
    } else {
      ChannelsAdd(s.tracks, s.channels, p, s.dataMid.value);
    }
  }

  lemma ChannelsAdd(tracks: map<Publication, Mid>, channels: set<Publication>, p: Publication, mid: Mid)
    ensures (tracks + map q | q in channels + {p} :: mid) == (tracks + map q | q in channels :: mid)[p := mid]
  {
  }

  lemma StartRemoveMedia(s: SenderState, p: Publication)
    requires Kinded(s.(publications := s.publications + {p})) && p !in s.publications && p.kind.Media?
    ensures Starts(s, StartRemove(s, p))
  {
    assert p !in s.channels;
  }

  lemma StartRemoveData(s: SenderState, p: Publication)
    requires Kinded(s.(publications := s.publications + {p})) && p !in s.publications && p.kind.DataChannel?
    ensures Starts(s, StartRemove(s, p))
  {
    assert p !in s.tracks;
  }

  lemma DoAgreed(s: SenderState, r: Request)
    requires Kinded(s) && (Busy(s) || s.work.NoWork?)
    ensures var s' := Do(s, r);
            && Kinded(s')
            && if s'.work == s.work then Offered(s') == Offered(s) && s'.lines == s.lines
               else !Busy(s) && s'.work.Preparing? && Offered(s') == Applied(Offered(s), s'.work.op)
  {
    if !Busy(s) {
      match r
      case Add(p) =>
        if p.kind.Media? { StartAddMedia(s, p); } else { StartAddData(s, p); }
      case Remove(p) =>
        if p in s.publications {
          assert s.publications - {p} + {p} == s.publications;
          var s1 := s.(publications := s.publications - {p});
          if p.kind.Media? { StartRemoveMedia(s1, p); } else { StartRemoveData(s1, p); }
        }
    }
  }

  lemma StepAgreed(w: World, step: Step)
    requires Exclusive(w) && Agreed(w) && Enabled(w, step)
    ensures Agreed(Next(w, step))
  {
    match step
    case Call(r) =>
      DoAgreed(w.sender, r);
      DoAgreed(w.sender.(requested := w.sender.requested + [r]), r);
    case Finish =>
      var s := w.sender.(negotiating := false, work := NoWork);
      if s.pending != [] {
        DoAgreed(s.(pending := s.pending[1..]), s.pending[0]);
        assert Resume(w.sender) == Resolve(s).(answering := Resolve(s).work.Preparing?);
      }
    case _ =>
  }

  /** In every run, whatever the application asks for and when. */
  lemma {:induction false} RunSafe(w: World, steps: seq<Step>, w': World)
    requires Exclusive(w) && Agreed(w) && Leads(w, steps, w')
    ensures Exclusive(w') && Agreed(w')
    decreases |steps|
  {
    if steps != [] {
      StepExclusive(w, steps[0]);
      StepAgreed(w, steps[0]);
      RunSafe(Next(w, steps[0]), steps[1..], w');
    }
  }

  ghost predicate Reachable(w: World)
  {
    exists steps :: Leads(INITIAL, steps, w)
  }

  /** One negotiation at a time, in every reachable state. */
  lemma OneNegotiation(w: World)
    requires Reachable(w)
    ensures Exclusive(w)
    ensures Enabled(w, Receive) ==> w.receiver.signaling == Stable
    ensures Enabled(w, ApplyAnswer) ==> w.sender.signaling == HaveLocalOffer
    ensures Enabled(w, SetOffer) ==> w.sender.signaling == Stable
  {
    var steps :| Leads(INITIAL, steps, w);
    RunSafe(INITIAL, steps, w);
  }

  /** Between negotiations the receiver knows exactly the sender's tracks and data channels. */
  lemma ReceiverKnowsWhatIsOffered(w: World)
    requires Reachable(w) && Tokens(w) == 0
    ensures w.receiver.info == Offered(w.sender)
    ensures w.sender.publications <= w.receiver.info.Keys
  {
    var steps :| Leads(INITIAL, steps, w);
    RunSafe(INITIAL, steps, w);
  }

  // ---- Which offers the receiver refuses --------------------------------------------------

  /** The live m-lines are those of the tracks, each its own, and the application m-line. */
  ghost predicate Lined(s: SenderState)
  {
    && s.lines == s.tracks.Values + (if s.dataMid.Some? then {s.dataMid.value} else {})
    && (forall m :: m in s.lines ==> m < s.nextMid)
    && (forall p, q :: p in s.tracks && q in s.tracks && p != q ==> s.tracks[p] != s.tracks[q])
    && (s.dataMid.Some? ==> s.dataMid.value !in s.tracks.Values)
  }

  /** The step starts adding media that still has a track. */
  ghost predicate Retracks(w: World, step: Step)
    requires Enabled(w, step)
  {
    var s, s' := w.sender, Next(w, step).sender;
    && |s'.started| == |s.started| + 1
    && s'.started[|s.started|].Add?
    && s'.started[|s.started|].publication in s.tracks
  }

  lemma StartAddLined(s: SenderState, p: Publication)
    requires Kinded(s) && Lined(s)
    ensures Lined(StartAdd(s, p)) <==> p !in s.tracks
  {
    var s' := StartAdd(s, p);
    if p.kind.Media? {
      if p in s.tracks {
        assert s.tracks[p] in s.lines && s.tracks[p] in s'.lines;
        assert s.tracks[p] !in s'.tracks.Values;
      } else {
        TracksAdd(s.tracks, p, s.nextMid);
      }
    }
  }

  lemma TracksAdd(tracks: map<Publication, Mid>, p: Publication, mid: Mid)
    requires p !in tracks
    ensures tracks[p := mid].Values == tracks.Values + {mid}
  {
    var tracks' := tracks[p := mid];
    assert p in tracks' && tracks'[p] == mid;
    forall m | m in tracks.Values
      ensures m in tracks'.Values
    {
      var q :| q in tracks && tracks[q] == m;
      assert q in tracks' && tracks'[q] == m;
    }
  }

  lemma StartRemoveLined(s: SenderState, p: Publication)
    requires Kinded(s) && Lined(s)
    ensures Lined(StartRemove(s, p))
  {
    if p.kind.Media? && p in s.tracks {
      var tracks' := s.tracks - {p};
      forall m | m in s.tracks.Values && m != s.tracks[p]
        ensures m in tracks'.Values
      {
        var q :| q in s.tracks && s.tracks[q] == m;
        assert q in tracks' && tracks'[q] == m;
      }
    }
  }

  lemma DoLined(s: SenderState, r: Request)
    requires Kinded(s) && Lined(s)
    ensures Lined(Do(s, r)) <==> !(r.Add? && !Busy(s) && r.publication in s.tracks)
  {
    match r
    case Add(p) => StartAddLined(s, p);
    case Remove(p) => StartRemoveLined(s.(publications := s.publications - {p}), p);
  }

  lemma CallLined(w: World, r: Request)
    requires Kinded(w.sender) && Lined(w.sender)
    ensures Lined(Next(w, Call(r)).sender) <==> !Retracks(w, Call(r))
  {
    DoLined(w.sender.(requested := w.sender.requested + [r]), r);
  }

  lemma FinishLined(w: World)
    requires Kinded(w.sender) && Lined(w.sender) && Enabled(w, Finish)
    ensures Lined(Next(w, Finish).sender) <==> !Retracks(w, Finish)
  {
    var s := w.sender.(negotiating := false, work := NoWork);
    if s.pending != [] {
      var queued := s.(pending := s.pending[1..]);
      DoLined(queued, s.pending[0]);
      SameLines(Resolve(s), Resume(w.sender));
      assert Resolve(s) == Do(queued, s.pending[0]);
    }
  }

  lemma SameLines(s: SenderState, s': SenderState)
    requires s' == s.(answering := s'.answering)
    ensures Lined(s) <==> Lined(s')
  {
  }

  /** The m-lines stay those of the tracks, except by adding media that still has a track. */
  lemma LinedIff(w: World, step: Step)
    requires Agreed(w) && Lined(w.sender) && Enabled(w, step)
    ensures Lined(Next(w, step).sender) <==> !Retracks(w, step)
  {
    match step
    case Call(r) => CallLined(w, r);
    case Finish => FinishLined(w);
    case _ =>
  }

  /**
   With the m-lines in order, every one of them belongs to a publication except the application
   m-line once its last data channel is gone.
   */
  lemma RefusedIffLined(s: SenderState)
    requires Kinded(s) && Lined(s)
    ensures s.lines <= Offered(s).Values <==> s.dataMid.None? || s.channels != {}
  {
    var offered := Offered(s);
    forall m | m in s.tracks.Values
      ensures m in offered.Values
    {
      var p :| p in s.tracks && s.tracks[p] == m;
      assert p in offered && offered[p] == m;
    }
    if s.channels != {} {
      var p :| p in s.channels;
      assert p in offered && offered[p] == s.dataMid.value;
    }
  }

  /**
   The receiver refuses a message exactly if it produces while some live m-line belongs to no
   track and no data channel.
   */
  lemma RefusedIff(w: World)
    requires Exclusive(w) && Agreed(w) && Enabled(w, Receive)
    ensures Next(w, Receive).receiver.refused <==>
              w.toReceiver[0].op.Produce? && !(w.sender.lines <= Offered(w.sender).Values)
    ensures Lined(w.sender) ==>
              (w.sender.lines <= Offered(w.sender).Values <==> w.sender.dataMid.None? || w.sender.channels != {})
  {
    if Lined(w.sender) {
      RefusedIffLined(w.sender);
    }
  }

  /** After a refusal no answer ever comes: no negotiation starts again. */
  lemma {:induction false} RefusedForGood(w: World, steps: seq<Step>, w': World)
    requires Exclusive(w) && w.receiver.refused && Leads(w, steps, w')
    ensures Exclusive(w') && w'.receiver.refused && w'.sender.negotiating
    ensures w'.sender.started == w.sender.started
    decreases |steps|
  {
    if steps != [] {
      StepExclusive(w, steps[0]);
      RefusedForGood(Next(w, steps[0]), steps[1..], w');
    }
  }

  // ---- Runs without deferred removals -----------------------------------------------------

  /**
   Audio and video only; media is added when it has no track and is not queued; a removal is
   asked for between negotiations and does not name a queued addition.
   */
  ghost predicate TameStep(w: World, step: Step)
  {
    var s := w.sender;
    match step
    case Call(Add(p)) => p.kind.Media? && p !in s.tracks && Add(p) !in s.pending
    case Call(Remove(p)) => (p in s.publications ==> !Busy(s)) && Add(p) !in s.pending
    case _ => true
  }

  /** What the steps of such a run keep. */
  ghost predicate Tame(w: World)
  {
    && Exclusive(w) && Agreed(w) && Lined(w.sender)
    && !w.receiver.refused
    && Orderly(w.sender)
    && (w.sender.pending != [] ==> w.sender.negotiating)
  }

  /** Every track is published, and what is queued are different additions of new media. */
  ghost predicate Orderly(s: SenderState)
  {
    && s.dataMid.None?
    && s.publications == s.tracks.Keys
    && (forall r :: r in s.pending ==> r.Add? && r.publication.kind.Media? && r.publication !in s.tracks)
    && (forall i, j :: 0 <= i < j < |s.pending| ==> s.pending[i] != s.pending[j])
    && s.requested == s.started + s.pending
  }

  lemma CallTame(w: World, r: Request)
    requires Tame(w) && TameStep(w, Call(r))
    ensures Tame(Next(w, Call(r)))
  {
    StepExclusive(w, Call(r));
    StepAgreed(w, Call(r));
    CallLined(w, r);
    var s := w.sender;
    match r
    case Add(p) =>
    case Remove(p) =>
      if p in s.publications {
        assert s.pending == [];
      }
  }

  lemma FinishTame(w: World)
    requires Tame(w) && Enabled(w, Finish)
    ensures Tame(Next(w, Finish))
  {
    StepExclusive(w, Finish);
    StepAgreed(w, Finish);
    LinedIff(w, Finish);
    ResumeOrderly(w.sender);
  }

  /** The first addition starts, and the others keep waiting behind it. */
  lemma ResumeOrderly(s: SenderState)
    requires Orderly(s) && s.signaling == Stable
    ensures Orderly(Resume(s)) && (Resume(s).pending != [] ==> Resume(s).negotiating)
    ensures s.pending != [] ==> s.pending[0].publication !in s.tracks
  {
    if s.pending != [] {
      var r, rest := s.pending[0], s.pending[1..];
      assert r in s.pending && s.pending == [r] + rest;
      RestDiffers(r, rest);
      AddedOrderly(s, r.publication, rest);
    }
  }

  lemma AddedOrderly(s: SenderState, p: Publication, rest: seq<Request>)
    requires Orderly(s) && s.signaling == Stable && s.pending == [Add(p)] + rest
    requires p.kind.Media? && p !in s.tracks && Add(p) !in rest
    requires forall i, j :: 0 <= i < j < |rest| ==> rest[i] != rest[j]
    ensures Orderly(Resume(s)) && Resume(s).negotiating
  {
    var s' := Resume(s);
    assert s.pending[1..] == rest;
    assert s'.tracks.Keys == s.tracks.Keys + {p};
    assert s'.started + rest == s.started + s.pending;
    forall r | r in rest
      ensures r.Add? && r.publication.kind.Media? && r.publication !in s'.tracks
    {
      assert r in s.pending;
    }
  }

  lemma RestDiffers(r: Request, rest: seq<Request>)
    requires forall i, j :: 0 <= i < j < |[r] + rest| ==> ([r] + rest)[i] != ([r] + rest)[j]
    ensures r !in rest && forall i, j :: 0 <= i < j < |rest| ==> rest[i] != rest[j]
  {
    forall i | 0 <= i < |rest|
      ensures rest[i] != r && forall j :: i < j < |rest| ==> rest[i] != rest[j]
    {
      assert ([r] + rest)[0] == r && ([r] + rest)[i + 1] == rest[i];
      assert forall j :: i < j < |rest| ==> ([r] + rest)[j + 1] == rest[j];
    }
  }

  lemma StepTame(w: World, step: Step)
    requires Tame(w) && Enabled(w, step) && TameStep(w, step)
    ensures Tame(Next(w, step))
  {
    match step
    case Call(r) => CallTame(w, r);
    case Finish => FinishTame(w);
    case Receive =>
      RefusedIff(w);
      StepExclusive(w, step);
      StepAgreed(w, step);
    case _ =>
      StepExclusive(w, step);
      StepAgreed(w, step);
  }

  /** Every step of the run is tame where it is taken. */
  ghost predicate TameRun(w: World, steps: seq<Step>)
    decreases |steps|
  {
    steps == [] ||
    (Enabled(w, steps[0]) && TameStep(w, steps[0]) && TameRun(Next(w, steps[0]), steps[1..]))
  }

  /**
   In such a run no offer is refused, queued work always has a negotiation in flight ahead of it,
   and requests start in the order they were made.
   */
  lemma {:induction false} TameRunsStayTame(w: World, steps: seq<Step>, w': World)
    requires Tame(w) && TameRun(w, steps) && Leads(w, steps, w')
    ensures Tame(w')
    decreases |steps|
  {
    if steps != [] {
      StepTame(w, steps[0]);
      TameRunsStayTame(Next(w, steps[0]), steps[1..], w');
    }
  }

  lemma InitialTame()
    ensures Tame(INITIAL)
  {
  }

  /** With nothing in flight the two sides agree on what is published, and all requests were served. */
  lemma QuietMeansConverged(w: World, steps: seq<Step>)
    requires TameRun(INITIAL, steps) && Leads(INITIAL, steps, w) && Tokens(w) == 0
    ensures w.receiver.info.Keys == w.sender.publications
    ensures w.sender.pending == [] && w.sender.started == w.sender.requested
  {
    InitialTame();
    TameRunsStayTame(INITIAL, steps, w);
    assert w.receiver.info == w.sender.tracks;
  }

  // ---- The queue drains -------------------------------------------------------------------

  function Rank(w: World): nat
  {
    if w.sender.work.Preparing? then 9
    else if w.sender.work.Ready? then 8
    else if w.toReceiver != [] then 7
    else if w.receiver.handling.Applying? then 6
    else if w.receiver.handling.Answering? then 5
    else if w.receiver.handling.Replying? then 4
    else if w.toSender > 0 then 2
    else if w.sender.work.Answered? then 1
    else 0
  }

  /** The handlers that have done their work but not returned. */
  function Lingering(w: World): nat
  {
    (if w.receiver.handling.Returning? then 1 else 0)
    + (if w.sender.answering && !w.sender.work.Answered? then 1 else 0)
  }

  /** The length of the queue, and what is left of the negotiation in flight and of the handlers. */
  function Measure(w: World): nat
  {
    10 * |w.sender.pending| + Rank(w) + Lingering(w)
  }

  predicate IsReturn(step: Step)
  {
    step.ReceiverReturns? || step.SenderReturns?
  }

  /**
   While a negotiation is under way, exactly one step moves it on.  It is possible unless an
   earlier handler has still to return, and then that return is possible.
   */
  lemma OneWayOn(w: World) returns (step: Step)
    requires Exclusive(w) && Tokens(w) == 1
    ensures !step.Call? && !IsReturn(step)
    ensures forall other: Step :: !other.Call? && !IsReturn(other) && Enabled(w, other) ==> other == step
    ensures Enabled(w, step) || (step.Receive? && Enabled(w, ReceiverReturns))
            || (step.ApplyAnswer? && Enabled(w, SenderReturns))
  {
    step :=
      if w.sender.work.Preparing? then SetOffer
      else if w.sender.work.Ready? then SendOffer
      else if w.toReceiver != [] then Receive
      else if w.receiver.handling.Applying? then ApplyOffer
      else if w.receiver.handling.Answering? then SetAnswer
      else if w.receiver.handling.Replying? then SendAnswer
      else if w.toSender > 0 then ApplyAnswer
      else Finish;
  }

  /** Every step other than a call brings the queue closer to empty. */
  lemma MeasureFalls(w: World, step: Step)
    requires Tame(w) && Enabled(w, step) && !step.Call?
    ensures Measure(Next(w, step)) < Measure(w)
  {
    if step.Finish? && w.sender.pending != [] {
      assert w.sender.pending[0] in w.sender.pending;
    }
    if step.Receive? {
      RefusedIff(w);
    }
  }

  /** From any state of such a run the negotiations complete, within as many steps as the measure says. */
  lemma {:induction false} Drains(w: World) returns (steps: seq<Step>, w': World)
    requires Tame(w)
    ensures Leads(w, steps, w') && TameRun(w, steps) && Tame(w') && Tokens(w') == 0
    ensures forall step :: step in steps ==> !step.Call?
    ensures |steps| <= Measure(w)
    decreases Measure(w)
  {
    if Tokens(w) == 0 {
      return [], w;
    }
    var onward := OneWayOn(w);
    var step := if Enabled(w, onward) then onward else if onward.Receive? then ReceiverReturns else SenderReturns;
    MeasureFalls(w, step);
    StepTame(w, step);
    var rest;
    rest, w' := Drains(Next(w, step));
    steps := [step] + rest;
    assert steps[1..] == rest;
  }

  /** No run without calls is longer than the measure. */
  lemma {:induction false} RunsAreBounded(w: World, steps: seq<Step>, w': World)
    requires Tame(w) && Leads(w, steps, w') && forall step :: step in steps ==> !step.Call?
    ensures |steps| <= Measure(w)
    decreases |steps|
  {
    if steps != [] {
      assert steps[0] in steps;
      MeasureFalls(w, steps[0]);
      StepTame(w, steps[0]);
      assert forall step :: step in steps[1..] ==> step in steps;
      RunsAreBounded(Next(w, steps[0]), steps[1..], w');
    }
  }

  // ---- Deferred removals ------------------------------------------------------------------

  /**
   A negotiation that ends leaves queued work waiting with nothing in flight exactly if the entry
   it dequeues removes a publication that is gone already.
   */
  lemma StallsIff(s: SenderState)
    requires s.work.Answered? && s.signaling == Stable
    ensures var s' := Resume(s);
            s'.pending != [] && !s'.negotiating <==>
              && |s.pending| > 1
              && s.pending[0].Remove?
              && s.pending[0].publication !in s.publications
  {
  }

  /** The steps from an addition's start to the receiver's verdict, and from there to the end. */
  function OfferSteps(w: World): seq<Step>
  {
    [SetOffer, SendOffer] + (if w.receiver.handling.Returning? then [ReceiverReturns] else []) + [Receive]
  }

  function AnswerSteps(w: World): seq<Step>
  {
    [ApplyOffer, SetAnswer, SendAnswer] + (if w.sender.answering then [SenderReturns] else [])
    + [ApplyAnswer, Finish]
  }

  lemma LeadsOne(w: World, step: Step)
    requires Enabled(w, step)
    ensures Leads(w, [step], Next(w, step))
  {
    assert [step][1..] == [];
    assert Leads(Next(w, step), [], Next(w, step));
  }

  lemma LeadsNext(w: World, steps: seq<Step>, w1: World, step: Step)
    requires Leads(w, steps, w1) && Enabled(w1, step)
    ensures Leads(w, steps + [step], Next(w1, step))
  {
    LeadsOne(w1, step);
    LeadsConcat(w, steps, w1, [step], Next(w1, step));
  }

  lemma OfferLeads(w: World) returns (w': World)
    requires Exclusive(w) && Agreed(w) && w.sender.work.Preparing?
    ensures Leads(w, OfferSteps(w), w') && Exclusive(w')
    ensures w'.receiver.refused <==> w.sender.work.op.Produce? && !(w.sender.lines <= Offered(w.sender).Values)
    ensures !w'.receiver.refused ==> w'.receiver.handling.Applying?
    ensures w'.sender == w.sender.(signaling := HaveLocalOffer, work := NoWork)
  {
    var w2 := OfferSent(w);
    var sent := [SetOffer, SendOffer];
    var w3 := w2;
    if w.receiver.handling.Returning? {
      w3 := Next(w2, ReceiverReturns);
      LeadsNext(w, sent, w2, ReceiverReturns);
      StepExclusive(w2, ReceiverReturns);
      StepAgreed(w2, ReceiverReturns);
      sent := sent + [ReceiverReturns];
    }
    RefusedIff(w3);
    w' := Next(w3, Receive);
    StepExclusive(w3, Receive);
    LeadsNext(w, sent, w3, Receive);
    assert sent + [Receive] == OfferSteps(w);
  }

  lemma OfferSent(w: World) returns (w': World)
    requires Exclusive(w) && Agreed(w) && w.sender.work.Preparing?
    ensures Leads(w, [SetOffer, SendOffer], w') && Exclusive(w') && Agreed(w')
    ensures w'.sender == w.sender.(signaling := HaveLocalOffer, work := NoWork)
    ensures w'.receiver == w.receiver && w'.toReceiver == [Offer(w.sender.work.op, w.sender.lines)]
  {
    var w1 := Next(w, SetOffer);
    w' := Next(w1, SendOffer);
    LeadsOne(w, SetOffer);
    LeadsNext(w, [SetOffer], w1, SendOffer);
    assert [SetOffer] + [SendOffer] == [SetOffer, SendOffer];
    RunSafe(w, [SetOffer, SendOffer], w');
  }

  lemma AnswerSent(w: World) returns (w': World)
    requires w.receiver.handling.Applying?
    ensures Leads(w, [ApplyOffer, SetAnswer, SendAnswer], w')
    ensures w'.sender == w.sender && w'.toSender == w.toSender + 1 && w'.receiver.refused == w.receiver.refused
  {
    var w1 := Next(w, ApplyOffer);
    var w2 := Next(w1, SetAnswer);
    w' := Next(w2, SendAnswer);
    LeadsOne(w, ApplyOffer);
    LeadsNext(w, [ApplyOffer], w1, SetAnswer);
    LeadsNext(w, [ApplyOffer] + [SetAnswer], w2, SendAnswer);
    assert [ApplyOffer] + [SetAnswer] + [SendAnswer] == [ApplyOffer, SetAnswer, SendAnswer];
  }

  lemma AnswerLeads(w: World) returns (w': World)
    requires Exclusive(w) && w.receiver.handling.Applying?
    ensures Leads(w, AnswerSteps(w), w') && w'.receiver.refused == w.receiver.refused
    ensures w'.sender == Resume(w.sender.(signaling := Stable, work := Answered, answering := true))
  {
    var w3 := AnswerSent(w);
    var steps := [ApplyOffer, SetAnswer, SendAnswer];
    var w4 := w3;
    if w.sender.answering {
      w4 := Next(w3, SenderReturns);
      LeadsNext(w, steps, w3, SenderReturns);
      steps := steps + [SenderReturns];
    }
    var w5 := Next(w4, ApplyAnswer);
    LeadsNext(w, steps, w4, ApplyAnswer);
    w' := Next(w5, Finish);
    LeadsNext(w, steps + [ApplyAnswer], w5, Finish);
    assert steps + [ApplyAnswer] + [Finish] == AnswerSteps(w);
  }

  lemma {:induction false} LeadsConcat(w: World, xs: seq<Step>, w1: World, ys: seq<Step>, w2: World)
    requires Leads(w, xs, w1) && Leads(w1, ys, w2)
    ensures Leads(w, xs + ys, w2)
    decreases |xs|
  {
    if xs == [] {
      assert xs + ys == ys;
    } else {
      assert (xs + ys)[1..] == xs[1..] + ys;
      LeadsConcat(Next(w, xs[0]), xs[1..], w1, ys, w2);
    }
  }

  lemma RemovalQueued(w: World, p: Publication, q: Publication) returns (w': World)
    requires Tame(w) && Tokens(w) == 0
    requires p in w.sender.publications && q.kind.Media? && q !in w.sender.tracks
    ensures Leads(w, [Call(Add(q)), Call(Remove(p))], w')
    ensures Exclusive(w') && Agreed(w') && Lined(w'.sender) && !w'.receiver.refused
    ensures var s := w'.sender;
            && s.dataMid.None? && s.work.Preparing? && s.pending == [Remove(p)]
            && p !in s.publications && p in s.tracks
  {
    CallTame(w, Add(q));
    var w1 := Next(w, Call(Add(q)));
    w' := Next(w1, Call(Remove(p)));
    LeadsTwo(w, Call(Add(q)), Call(Remove(p)));
    StepExclusive(w1, Call(Remove(p)));
    StepAgreed(w1, Call(Remove(p)));
    LinedIff(w1, Call(Remove(p)));
  }

  lemma LeadsTwo(w: World, first: Step, second: Step)
    requires Enabled(w, first) && Enabled(Next(w, first), second)
    ensures Leads(w, [first, second], Next(Next(w, first), second))
  {
    LeadsOne(w, first);
    LeadsNext(w, [first], Next(w, first), second);
    assert [first] + [second] == [first, second];
  }

  /** A negotiation whose offer is not refused runs to its end, and the sender takes up what is queued. */
  lemma Round(w: World) returns (steps: seq<Step>, w': World)
    requires Exclusive(w) && Agreed(w) && w.sender.work.Preparing?
    requires w.sender.work.op.Unproduce? || w.sender.lines <= Offered(w.sender).Values
    ensures Leads(w, steps, w') && Exclusive(w') && Agreed(w') && !w'.receiver.refused
    ensures w'.sender == Resume(w.sender.(signaling := Stable, work := Answered, answering := true))
  {
    var w1 := OfferLeads(w);
    w' := AnswerLeads(w1);
    LeadsConcat(w, OfferSteps(w), w1, AnswerSteps(w1), w');
    steps := OfferSteps(w) + AnswerSteps(w1);
    RunSafe(w, steps, w');
  }

  /** The negotiation that such a removal waits for ends with nothing in flight. */
  lemma RoundEndsQuiet(w: World) returns (steps: seq<Step>, w': World)
    requires Exclusive(w) && Agreed(w) && Lined(w.sender)
    requires var s := w.sender;
             && s.dataMid.None? && s.work.Preparing?
             && s.pending != [] && s.pending[0].Remove? && s.pending[0].publication !in s.publications
    ensures Leads(w, steps, w') && Exclusive(w') && Agreed(w') && !w'.receiver.refused
    ensures w'.sender == w.sender.(negotiating := false, signaling := Stable, work := NoWork, answering := false,
                                   pending := w.sender.pending[1..])
  {
    RefusedIffLined(w.sender);
    steps, w' := Round(w);
  }

  /**
   A removal deferred behind the addition of other media leads back to a state with nothing in
   flight in which the publication is gone from the sender, but its track and the receiver's
   knowledge of it are not.
   */
  lemma DeferredRemovalLeaks(w: World, p: Publication, q: Publication) returns (steps: seq<Step>, w': World)
    requires Tame(w) && Tokens(w) == 0
    requires p in w.sender.publications && q.kind.Media? && q !in w.sender.tracks
    ensures Leads(w, steps, w') && Exclusive(w') && Agreed(w') && Lined(w'.sender)
    ensures Tokens(w') == 0 && !w'.receiver.refused && w'.sender.dataMid.None?
    ensures p !in w'.sender.publications && p in w'.sender.tracks && p in w'.receiver.info
  {
    var w1 := RemovalQueued(w, p, q);
    var round;
    round, w' := RoundEndsQuiet(w1);
    var calls := [Call(Add(q)), Call(Remove(p))];
    LeadsConcat(w, calls, w1, round, w');
    steps := calls + round;
    RunSafe(w, steps, w');
  }

  /** Work that is queued behind such a removal is left waiting with nothing in flight. */
  lemma QueuedWorkStalls(w: World, p: Publication, q: Publication, r: Publication)
      returns (steps: seq<Step>, w': World)
    requires Tame(w) && Tokens(w) == 0 && p in w.sender.publications
    requires q.kind.Media? && q !in w.sender.tracks
    ensures Leads(w, steps, w') && !w'.receiver.refused
    ensures Tokens(w') == 0 && !w'.sender.negotiating && w'.sender.pending == [Add(r)]
  {
    var w1 := RemovalQueued(w, p, q);
    var w2 := Next(w1, Call(Add(r)));
    var calls := [Call(Add(q)), Call(Remove(p))];
    LeadsNext(w, calls, w1, Call(Add(r)));
    StepExclusive(w1, Call(Add(r)));
    StepAgreed(w1, Call(Add(r)));
    assert w2.sender.pending == [Remove(p), Add(r)] && w2.sender.pending[1..] == [Add(r)];
    var round;
    round, w' := RoundEndsQuiet(w2);
    LeadsConcat(w, calls + [Call(Add(r))], w2, round, w');
    steps := calls + [Call(Add(r))] + round;
  }

  /** A call that starts a negotiation, and that negotiation. */
  lemma CallAndRound(w: World, r: Request) returns (steps: seq<Step>, w': World)
    requires Exclusive(w) && Agreed(w)
    requires var s := Ask(w.sender, r);
             s.work.Preparing? && (s.work.op.Unproduce? || s.lines <= Offered(s).Values)
    ensures Leads(w, steps, w') && Exclusive(w') && Agreed(w') && !w'.receiver.refused
    ensures w'.sender == Resume(Ask(w.sender, r).(signaling := Stable, work := Answered, answering := true))
  {
    var w1 := Next(w, Call(r));
    LeadsOne(w, Call(r));
    StepExclusive(w, Call(r));
    StepAgreed(w, Call(r));
    var round;
    round, w' := Round(w1);
    LeadsConcat(w, [Call(r)], w1, round, w');
    steps := [Call(r)] + round;
  }

  /** Adding media that still has a track leaves an m-line that belongs to nothing. */
  lemma StartAddRefusedIff(s: SenderState, p: Publication)
    requires Kinded(s) && Lined(s) && p.kind.Media?
    ensures var s' := StartAdd(s, p);
            s'.lines <= Offered(s').Values <==> p !in s.tracks && (s.dataMid.None? || s.channels != {})
  {
    var s' := StartAdd(s, p);
    StartAddLined(s, p);
    if p in s.tracks {
      var mid := s.tracks[p];
      assert mid in s.lines && mid in s'.lines;
      assert mid !in s'.tracks.Values && Some(mid) != s.dataMid;
      assert mid !in Offered(s').Values;
    } else {
      StartAddMedia(s, p);
      RefusedIffLined(s');
    }
  }

  /**
   Media added between negotiations is refused, and negotiation ends for good, exactly if it
   still has a track or an application m-line has outlived its last data channel: after a deferred
   removal a publication cannot be offered again.
   */
  lemma AddRefusedIff(w: World, p: Publication) returns (w': World)
    requires Exclusive(w) && Agreed(w) && Lined(w.sender)
    requires Tokens(w) == 0 && !w.receiver.refused && p.kind.Media?
    ensures Leads(w, [Call(Add(p))] + OfferSteps(w), w')
    ensures w'.receiver.refused <==>
              p in w.sender.tracks || (w.sender.dataMid.Some? && w.sender.channels == {})
  {
    var w1 := Next(w, Call(Add(p)));
    StepExclusive(w, Call(Add(p)));
    StepAgreed(w, Call(Add(p)));
    w' := OfferLeads(w1);
    LeadsOne(w, Call(Add(p)));
    LeadsConcat(w, [Call(Add(p))], w1, OfferSteps(w1), w');
    StartAddRefusedIff(w.sender.(requested := w.sender.requested + [Add(p)]), p);
  }

  /** A data channel that came and went makes the receiver refuse the media added next. */
  lemma DataLineRefuses(d: Publication, p: Publication) returns (steps: seq<Step>, w': World)
    requires d.kind.DataChannel? && p.kind.Media?
    ensures Leads(INITIAL, steps, w') && w'.receiver.refused
  {
    var before, w := ChannelComesAndGoes(d);
    w' := AddRefusedIff(w, p);
    LeadsConcat(INITIAL, before, w, [Call(Add(p))] + OfferSteps(w), w');
    steps := before + ([Call(Add(p))] + OfferSteps(w));
  }

  lemma ChannelComesAndGoes(d: Publication) returns (steps: seq<Step>, w: World)
    requires d.kind.DataChannel?
    ensures Leads(INITIAL, steps, w) && Exclusive(w) && Agreed(w) && Lined(w.sender)
    ensures Tokens(w) == 0 && !w.receiver.refused && w.sender.dataMid.Some? && w.sender.channels == {}
  {
    var first, w1 := ChannelComes(d);
    var second;
    second, w := CallAndRound(w1, Remove(d));
    assert w.sender.channels == {} && w.sender.tracks == map[] && w.sender.lines == {0};
    LeadsConcat(INITIAL, first, w1, second, w);
    steps := first + second;
  }

  lemma ChannelComes(d: Publication) returns (steps: seq<Step>, w: World)
    requires d.kind.DataChannel?
    ensures Leads(INITIAL, steps, w) && Exclusive(w) && Agreed(w) && !w.receiver.refused && Tokens(w) == 0
    ensures var s := w.sender;
            && s.publications == s.channels == {d} && s.tracks == map[] && s.pending == []
            && s.dataMid == Some(0) && s.lines == {0} && s.nextMid == 1
  {
    var s := Ask(INITIAL.sender, Add(d));
    assert d in Offered(s) && Offered(s)[d] == 0 && s.lines == {0};
    steps, w := CallAndRound(INITIAL, Add(d));
  }

  // ---- Exactly which removals are lost ----------------------------------------------------

  /** Every call of the run is about audio or video; otherwise it is arbitrary. */
  ghost predicate MediaSteps(steps: seq<Step>)
  {
    forall i :: 0 <= i < |steps| && steps[i].Call? ==> steps[i].request.publication.kind.Media?
  }

  /** The step removes a publication while a negotiation is under way. */
  predicate Defers(w: World, step: Step)
  {
    step.Call? && step.request.Remove? && step.request.publication in w.sender.publications && Busy(w.sender)
  }

  function DeferredBy(w: World, step: Step): set<Publication>
  {
    if Defers(w, step) then {step.request.publication} else {}
  }

  /** The publications whose removal the run defers. */
  function DeferredRemovals(w: World, steps: seq<Step>): set<Publication>
    decreases |steps|
  {
    if steps == [] || !Enabled(w, steps[0]) then {}
    else DeferredBy(w, steps[0]) + DeferredRemovals(Next(w, steps[0]), steps[1..])
  }

  /** The run starts adding, at some point, media that still has a track. */
  ghost predicate EverRetracks(w: World, steps: seq<Step>)
    decreases |steps|
  {
    steps != [] && Enabled(w, steps[0])
    && (Retracks(w, steps[0]) || EverRetracks(Next(w, steps[0]), steps[1..]))
  }

  /** The publications that have a track but are gone from the sender. */
  function Leaked(s: SenderState): set<Publication>
  {
    s.tracks.Keys - s.publications
  }

  /** What the steps of a media run keep until media is added that still has a track. */
  ghost predicate Sound(w: World)
  {
    var s := w.sender;
    && Exclusive(w) && Agreed(w) && Lined(s)
    && !w.receiver.refused && s.dataMid.None?
    && forall r :: r in s.pending ==> r.publication.kind.Media?
  }

  /** The receiver has refused an offer, or will refuse the one that is on its way. */
  ghost predicate Doomed(w: World)
  {
    && Exclusive(w) && Agreed(w)
    && (w.receiver.refused
        || (Unapplied(w).Some? && Unapplied(w).value.Produce? && !(w.sender.lines <= Offered(w.sender).Values)))
  }

  lemma StepDoomed(w: World, step: Step)
    requires Doomed(w) && Enabled(w, step)
    ensures Doomed(Next(w, step))
  {
    StepExclusive(w, step);
    StepAgreed(w, step);
    if step.Receive? {
      RefusedIff(w);
    }
  }

  /** Carrying out a request changes what is leaked only by deferring a removal. */
  lemma DoLeaked(s: SenderState, r: Request)
    requires Kinded(s) && Lined(s) && s.dataMid.None? && r.publication.kind.Media?
    requires r.Add? && !Busy(s) ==> r.publication !in s.tracks
    ensures var deferred := r.Remove? && r.publication in s.publications && Busy(s);
            Leaked(Do(s, r)) == Leaked(s) + if deferred then {r.publication} else {}
    ensures Do(s, r).dataMid.None?
  {
  }

  lemma CallSound(w: World, r: Request)
    requires Sound(w) && r.publication.kind.Media?
    ensures var (w', step) := (Next(w, Call(r)), Call(r));
            if Retracks(w, step) then Doomed(w')
            else Sound(w') && Leaked(w'.sender) == Leaked(w.sender) + if Defers(w, step) then {r.publication} else {}
  {
    var s := w.sender.(requested := w.sender.requested + [r]);
    StepExclusive(w, Call(r));
    StepAgreed(w, Call(r));
    CallLined(w, r);
    if Retracks(w, Call(r)) {
      StartAddRefusedIff(s, r.publication);
    } else {
      DoLeaked(s, r);
    }
  }

  lemma FinishSound(w: World)
    requires Sound(w) && Enabled(w, Finish)
    ensures var w' := Next(w, Finish);
            if Retracks(w, Finish) then Doomed(w') else Sound(w') && Leaked(w'.sender) == Leaked(w.sender)
  {
    StepExclusive(w, Finish);
    StepAgreed(w, Finish);
    FinishLined(w);
    FinishLeaked(w);
  }

  /** What is dequeued either retracks, or leaves the leaked publications as they are. */
  lemma FinishLeaked(w: World)
    requires Sound(w) && Enabled(w, Finish)
    ensures var s := Next(w, Finish).sender;
            && s.dataMid.None?
            && (if Retracks(w, Finish) then s.work.Preparing? && s.work.op.Produce? && !(s.lines <= Offered(s).Values)
                else Leaked(s) == Leaked(w.sender))
  {
    var s := w.sender.(negotiating := false, work := NoWork);
    if s.pending != [] {
      var queued, r := s.(pending := s.pending[1..]), s.pending[0];
      assert r in w.sender.pending;
      assert Resolve(s) == Do(queued, r);
      if Retracks(w, Finish) {
        StartAddRefusedIff(queued, r.publication);
        assert Offered(Resume(w.sender)) == Offered(Resolve(s));
      } else {
        DoLeaked(queued, r);
      }
    }
  }

  lemma OtherSound(w: World, step: Step)
    requires Sound(w) && Enabled(w, step) && !step.Call? && !step.Finish?
    ensures !Retracks(w, step) && !Defers(w, step)
    ensures Sound(Next(w, step)) && Leaked(Next(w, step).sender) == Leaked(w.sender)
  {
    StepExclusive(w, step);
    StepAgreed(w, step);
    if step.Receive? {
      RefusedIff(w);
    }
  }

  lemma {:induction false} DoomedForGood(w: World, steps: seq<Step>, w': World)
    requires Doomed(w) && Leads(w, steps, w')
    ensures Doomed(w')
    decreases |steps|
  {
    if steps != [] {
      StepDoomed(w, steps[0]);
      DoomedForGood(Next(w, steps[0]), steps[1..], w');
    }
  }

  /** What becomes of a sound state, by whether media was retracked and which removals were deferred. */
  ghost predicate Accounted(w: World, w': World, retracked: bool, deferred: set<Publication>)
  {
    if retracked then Doomed(w') else Sound(w') && Leaked(w'.sender) == Leaked(w.sender) + deferred
  }

  lemma StepAccounts(w: World, step: Step)
    requires Sound(w) && Enabled(w, step) && (step.Call? ==> step.request.publication.kind.Media?)
    ensures Accounted(w, Next(w, step), Retracks(w, step), DeferredBy(w, step))
  {
    match step
    case Call(r) => CallSound(w, r);
    case Finish => FinishSound(w);
    case _ => OtherSound(w, step);
  }

  lemma AccountedTrans(w: World, w1: World, w2: World, xs: set<Publication>, retracked: bool, ys: set<Publication>)
    requires Accounted(w, w1, false, xs) && Accounted(w1, w2, retracked, ys)
    ensures Accounted(w, w2, retracked, xs + ys)
  {
  }

  lemma {:induction false} RunAccounts(w: World, steps: seq<Step>, w': World)
    requires Sound(w) && MediaSteps(steps) && Leads(w, steps, w')
    ensures Accounted(w, w', EverRetracks(w, steps), DeferredRemovals(w, steps))
    decreases |steps|
  {
    if steps != [] {
      var w1, rest := Next(w, steps[0]), steps[1..];
      StepAccounts(w, steps[0]);
      assert forall i :: 0 <= i < |rest| ==> rest[i] == steps[i + 1];
      RunUnfolds(w, steps, w');
      if Retracks(w, steps[0]) {
        DoomedForGood(w1, rest, w');
      } else {
        RunAccounts(w1, rest, w');
        AccountedTrans(w, w1, w', DeferredBy(w, steps[0]), EverRetracks(w1, rest), DeferredRemovals(w1, rest));
      }
    }
  }

  lemma RunUnfolds(w: World, steps: seq<Step>, w': World)
    requires steps != [] && Leads(w, steps, w')
    ensures Enabled(w, steps[0]) && Leads(Next(w, steps[0]), steps[1..], w')
    ensures EverRetracks(w, steps) <==> Retracks(w, steps[0]) || EverRetracks(Next(w, steps[0]), steps[1..])
    ensures DeferredRemovals(w, steps) == DeferredBy(w, steps[0]) + DeferredRemovals(Next(w, steps[0]), steps[1..])
  {
  }

  /**
   In every run over audio and video that ends with nothing in flight: the receiver has refused
   exactly if media was added that still had a track; and if not, it knows exactly the sender's
   publications and those whose removal was deferred, so that the two sides agree exactly if no
   removal was.
   */
  lemma ConvergesIff(steps: seq<Step>, w: World)
    requires MediaSteps(steps) && Leads(INITIAL, steps, w) && Tokens(w) == 0
    ensures w.receiver.refused <==> EverRetracks(INITIAL, steps)
    ensures !w.receiver.refused ==>
              && w.receiver.info.Keys == w.sender.publications + DeferredRemovals(INITIAL, steps)
              && w.sender.publications !! DeferredRemovals(INITIAL, steps)
              && (w.receiver.info.Keys == w.sender.publications <==> DeferredRemovals(INITIAL, steps) == {})
  {
    RunAccounts(INITIAL, steps, w);
    if !w.receiver.refused {
      assert w.receiver.info == w.sender.tracks;
      assert Leaked(w.sender) == DeferredRemovals(INITIAL, steps);
    }
  }

  /** Every addition of the run names media that has no track and is not queued. */
  ghost predicate Careful(w: World, steps: seq<Step>)
    decreases |steps|
  {
    steps == [] || !Enabled(w, steps[0]) ||
    (CarefulStep(w, steps[0]) && Careful(Next(w, steps[0]), steps[1..]))
  }

  /** Queued additions are different from each other and name nothing that has a track. */
  ghost predicate QueueCareful(s: SenderState)
  {
    && (forall r :: r in s.pending && r.Add? ==> r.publication !in s.tracks)
    && (forall i, j :: 0 <= i < j < |s.pending| && s.pending[i].Add? ==> s.pending[i] != s.pending[j])
  }

  ghost predicate CarefulStep(w: World, step: Step)
  {
    step.Call? && step.request.Add? ==>
      step.request.publication !in w.sender.tracks && step.request !in w.sender.pending
  }

  lemma CallCareful(w: World, r: Request)
    requires Sound(w) && QueueCareful(w.sender) && r.publication.kind.Media? && CarefulStep(w, Call(r))
    ensures !Retracks(w, Call(r)) && QueueCareful(Next(w, Call(r)).sender)
  {
    match r
    case Add(p) =>
    case Remove(p) => assert Next(w, Call(r)).sender.tracks.Keys <= w.sender.tracks.Keys;
  }

  lemma FinishCareful(w: World)
    requires Sound(w) && QueueCareful(w.sender) && Enabled(w, Finish)
    ensures !Retracks(w, Finish) && QueueCareful(Next(w, Finish).sender)
  {
    var s := w.sender;
    if s.pending != [] {
      var r, rest := s.pending[0], s.pending[1..];
      assert r in s.pending && s.pending == [r] + rest;
      assert forall i :: 0 <= i < |rest| ==> rest[i] == s.pending[i + 1];
      assert Next(w, Finish).sender.pending == rest;
      assert Next(w, Finish).sender.tracks.Keys <= s.tracks.Keys + (if r.Add? then {r.publication} else {});
    }
  }

  lemma StepCareful(w: World, step: Step)
    requires Sound(w) && QueueCareful(w.sender) && Enabled(w, step) && CarefulStep(w, step)
    requires step.Call? ==> step.request.publication.kind.Media?
    ensures !Retracks(w, step) && QueueCareful(Next(w, step).sender)
  {
    match step
    case Call(r) => CallCareful(w, r);
    case Finish => FinishCareful(w);
    case _ =>
  }

  /** A run whose additions are careful is never refused. */
  lemma {:induction false} CarefulIsNotRefused(w: World, steps: seq<Step>, w': World)
    requires Sound(w) && QueueCareful(w.sender)
    requires MediaSteps(steps) && Careful(w, steps) && Leads(w, steps, w')
    ensures !EverRetracks(w, steps) && !w'.receiver.refused
    decreases |steps|
  {
    if steps != [] {
      var rest := steps[1..];
      StepCareful(w, steps[0]);
      StepAccounts(w, steps[0]);
      assert forall i :: 0 <= i < |rest| ==> rest[i] == steps[i + 1];
      CarefulIsNotRefused(Next(w, steps[0]), rest, w');
    }
  }
}
