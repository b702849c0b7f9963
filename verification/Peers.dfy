/** The two ends of a P2P connection as objects; each method is one piece between two `await`s. */
module Peers {
  import opened Util
  import opened Negotiation

  class Sender {
    var publications: set<Publication>
    var transceivers: map<Publication, Mid>
    var datachannels: set<Publication>
    var dataMid: Option<Mid>
    var lines: set<Mid>
    var nextMid: Mid
    var pendingPublications: seq<Request>
    var isNegotiating: bool
    var signalingState: Signaling
    var work: Work
    var answering: bool
    ghost var requested: seq<Request>
    ghost var started: seq<Request>

    ghost function Model(): SenderState
      reads this
    {
      SenderState(publications, transceivers, datachannels, dataMid, lines, nextMid, pendingPublications,
                  isNegotiating, signalingState, work, answering, requested, started)
    }

    constructor ()
      ensures Model() == INITIAL.sender
    {
      publications, transceivers, datachannels := {}, map[], {};
      dataMid, lines, nextMid := None, {}, 0;
      pendingPublications, isNegotiating, signalingState, work, answering := [], false, Stable, NoWork, false;
      requested, started := [], [];
    }

    /** `add`, up to `createOffer`. */
    method Add(publication: Publication)
      modifies this
      ensures Model() == TryAdd(old(Model()), publication)
    {
      if isNegotiating || signalingState != Stable {
        pendingPublications := pendingPublications + [Request.Add(publication)];
        return;
      }
      isNegotiating := true;
      publications := publications + {publication};
      started := started + [Request.Add(publication)];
      if publication.kind.DataChannel? {
        CreateDataChannel(publication);
      } else {
        AddTransceiver(publication);
      }
    }

    method CreateDataChannel(publication: Publication)
      modifies this
      ensures Model() == OpenChannel(old(Model()), publication)
    {
      datachannels := datachannels + {publication};
      if dataMid.None? {
        dataMid, lines, nextMid := Some(nextMid), lines + {nextMid}, nextMid + 1;
      }
      work := Preparing(Produce(publication, dataMid.value));
    }

    method AddTransceiver(publication: Publication)
      modifies this
      ensures Model() == OpenTrack(old(Model()), publication)
    {
      transceivers := transceivers[publication := nextMid];
      work := Preparing(Produce(publication, nextMid));
      lines, nextMid := lines + {nextMid}, nextMid + 1;
    }

    /** `remove`, up to `createOffer`. */
    method Remove(publication: Publication)
      modifies this
      ensures Model() == TryRemove(old(Model()), publication)
    {
      if publication !in publications {
        return;
      }
      publications := publications - {publication};
      if isNegotiating || signalingState != Stable {
        pendingPublications := pendingPublications + [Request.Remove(publication)];
        return;
      }
      isNegotiating := true;
      started := started + [Request.Remove(publication)];
      work := Preparing(Unproduce(publication));
      if publication.kind.DataChannel? {
        datachannels := datachannels - {publication};
      } else {
        StopTransceiver(publication);
      }
    }

    method StopTransceiver(publication: Publication)
      modifies this
      ensures Model() == StopTrack(old(Model()), publication)
    {
      if publication in transceivers {
        lines := lines - {transceivers[publication]};
        transceivers := transceivers - {publication};
      }
    }

    /** `setLocalDescription`; the message is built from the local description. */
    method SetOffer() returns (offer: Offer)
      requires work.Preparing?
      modifies this
      ensures offer == Offer(old(work).op, lines)
      ensures Model() == old(Model()).(signaling := HaveLocalOffer, work := Ready(offer))
    {
      signalingState := HaveLocalOffer;
      offer := Offer(work.op, lines);
      work := Ready(offer);
    }

    /** `_handleReceiverAnswer` after `waitForSignalingState`. */
    method FinishAnswer()
      requires work.Answered?
      modifies this
      ensures Model() == Resume(old(Model()))
    {
      isNegotiating, work := false, NoWork;
      ResolvePendingSender();
      answering := work.Preparing?;
    }

    method ResolvePendingSender()
      modifies this
      ensures Model() == Resolve(old(Model()))
    {
      if pendingPublications == [] {
        return;
      }
      var next := pendingPublications[0];
      pendingPublications := pendingPublications[1..];
      match next {
        case Add(publication) => Add(publication);
        case Remove(publication) => Remove(publication);
      }
    }
  }

  class Receiver {
    var publicationInfo: map<Publication, Mid>
    var signalingState: Signaling
    var handling: Handling
    var refused: bool

    ghost function Model(): ReceiverState
      reads this
    {
      ReceiverState(publicationInfo, signalingState, handling, refused)
    }

    constructor ()
      ensures Model() == INITIAL.receiver
    {
      publicationInfo, signalingState, handling, refused := map[], Stable, Free, false;
    }

    /** `_handleSenderProduce` and `_handleSenderUnproduce`, up to `sendAnswer`. */
    method Handle(offer: Offer)
      modifies this
      ensures Model() == StartHandling(old(Model()), offer)
    {
      if signalingState != Stable {
        handling := Deferred(offer);
        return;
      }
      match offer.op {
        case Produce(publication, mid) =>
          publicationInfo := publicationInfo[publication := mid];
          var valid := ValidateRemoteOffer(offer.active);
          if !valid {
            refused := true;
            return;
          }
        case Unproduce(publication) =>
          publicationInfo := publicationInfo - {publication};
      }
      handling := Applying(offer);
    }

    /** Looks up the publication of every m-line that is not inactive. */
    method ValidateRemoteOffer(active: set<Mid>) returns (valid: bool)
      ensures valid == Valid(active, publicationInfo)
    {
      var todo := active;
      while todo != {}
        invariant todo <= active && active - todo <= publicationInfo.Values
      {
        var mid :| mid in todo;
        if mid !in publicationInfo.Values {
          return false;
        }
        todo := todo - {mid};
      }
      return true;
    }
  }
}
