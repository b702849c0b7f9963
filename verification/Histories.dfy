/**
 What the channel's lists hold, told from the log: every record goes back to the event that
 introduced it and to the later events that overwrote its fields.
 */
module Histories {
  import opened Util
  import opened Entries
  import opened Replica

  // ---- What the log says ------------------------------------------------------------------

  /** The metadata of a publication after some events, if it was `before` and stays published. */
  function LatestMetadata(events: seq<Event>, id: Id, before: Option<string>): Option<string>
    decreases |events|
  {
    if events == [] then before else
    var change := events[|events| - 1].change;
    if change.PublicationMetadataUpdated? && change.id == id then change.metadata
    else LatestMetadata(events[..|events| - 1], id, before)
  }

  function LatestEnabled(events: seq<Event>, id: Id, before: bool): bool
    decreases |events|
  {
    if events == [] then before else
    var change := events[|events| - 1].change;
    if (change.PublicationEnabled? || change.PublicationDisabled?) && change.id == id then change.isEnabled
    else LatestEnabled(events[..|events| - 1], id, before)
  }

  function LatestMemberMetadata(events: seq<Event>, id: Id, before: Option<string>): Option<string>
    decreases |events|
  {
    if events == [] then before else
    var change := events[|events| - 1].change;
    if change.MemberMetadataUpdated? && change.id == id then change.metadata
    else LatestMemberMetadata(events[..|events| - 1], id, before)
  }

  function LatestChannelMetadata(events: seq<Event>, before: Option<string>): Option<string>
    decreases |events|
  {
    if events == [] then before else
    var change := events[|events| - 1].change;
    if change.ChannelMetadataUpdated? then Some(change.channelMetadata)
    else LatestChannelMetadata(events[..|events| - 1], before)
  }

  ghost predicate NeverHappens(events: seq<Event>, change: Change)
  {
    forall i :: 0 <= i < |events| ==> events[i].change != change
  }

  /** Event `i` publishes `id`, which is not unpublished later. */
  ghost predicate PublishesLast(events: seq<Event>, i: nat, id: Id)
  {
    && i < |events|
    && events[i].change.StreamPublished? && events[i].change.publication.id == id
    && NeverHappens(events[i + 1..], StreamUnpublished(id))
  }

  /** Event `i` publishes `id`, which is not in the list at that time and is not unpublished later. */
  ghost predicate IntroducesPublication(c: Channel, events: seq<Event>, i: nat, id: Id)
  {
    PublishesLast(events, i, id) && id !in Table(Fold(c, events[..i]).publications)
  }

  ghost predicate IntroducesSubscription(c: Channel, events: seq<Event>, i: nat, id: Id)
  {
    && i < |events|
    && events[i].change.StreamSubscribed? && events[i].change.subscription.id == id
    && id !in Table(Fold(c, events[..i]).subscriptions)
    && NeverHappens(events[i + 1..], StreamUnsubscribed(id))
  }

  ghost predicate IntroducesMember(c: Channel, events: seq<Event>, i: nat, id: Id)
  {
    && i < |events|
    && events[i].change.MemberAdded? && events[i].change.member.id == id
    && id !in Table(Fold(c, events[..i]).members)
    && NeverHappens(events[i + 1..], MemberRemoved(id))
  }

  // ---- What the records hold --------------------------------------------------------------

  /** The record that the summary names, with what later events made of its two mutable fields. */
  predicate IsPublished(p: PublicationBody, s: PublicationSummary, since: seq<Event>)
  {
    && p.publisherId == s.publisherId && p.origin == s.origin && p.contentType == s.contentType
    && p.encodings == (match s.encodings case Some(encodings) => encodings case None => [])
    && p.metadata == LatestMetadata(since, s.id, s.metadata)
    && p.isEnabled == LatestEnabled(since, s.id, s.isEnabled)
  }

  predicate IsStill(p: PublicationBody, was: PublicationBody, id: Id, since: seq<Event>)
  {
    && p.publisherId == was.publisherId && p.origin == was.origin && p.contentType == was.contentType
    && p.encodings == was.encodings
    && p.metadata == LatestMetadata(since, id, was.metadata)
    && p.isEnabled == LatestEnabled(since, id, was.isEnabled)
  }

  predicate IsSubscribed(r: SubscriptionBody, s: SubscriptionSummary, publications: map<Id, PublicationBody>)
  {
    && r.publicationId == s.publicationId && r.subscriberId == s.subscriberId
    && s.publicationId in publications
    && r.publisherId == publications[s.publicationId].publisherId
    && r.contentType == publications[s.publicationId].contentType
  }

  predicate IsMember(r: MemberBody, was: MemberBody, id: Id, since: seq<Event>)
  {
    r.kind == was.kind && r.metadata == LatestMemberMetadata(since, id, was.metadata)
  }

  // ---- One event --------------------------------------------------------------------------

  lemma FoldOne(c: Channel, before: seq<Event>, e: Event) returns (n: Option<Notice>)
    ensures Effect(TablesOf(Fold(c, before)), e.change, TablesOf(Fold(c, before + [e])), n)
  {
    assert (before + [e])[..|before|] == before;
    ApplyTables(Fold(c, before), e);
    n := Apply(Fold(c, before), e).1;
  }

  lemma NeverOneMore(events: seq<Event>, e: Event, change: Change)
    ensures NeverHappens(events + [e], change) <==> NeverHappens(events, change) && e.change != change
  {
    assert forall i :: 0 <= i < |events| ==> (events + [e])[i] == events[i];
    assert (events + [e])[|events|] == e;
  }

  lemma SuffixOneMore(events: seq<Event>, e: Event, i: nat)
    requires i < |events|
    ensures (events + [e])[i + 1..] == events[i + 1..] + [e] && (events + [e])[..i] == events[..i]
    ensures (events + [e])[i] == events[i]
  {
  }

  /** What one event makes of the mutable fields of a publication that stays in the list. */
  lemma EditsOneMore(since: seq<Event>, e: Event, id: Id, metadata: Option<string>, isEnabled: bool)
    ensures LatestMetadata(since + [e], id, metadata) ==
            match e.change
            case PublicationMetadataUpdated(i, m) => if i == id then m else LatestMetadata(since, id, metadata)
            case _ => LatestMetadata(since, id, metadata)
    ensures LatestEnabled(since + [e], id, isEnabled) ==
            match e.change
            case PublicationEnabled(i, b) => if i == id then b else LatestEnabled(since, id, isEnabled)
            case PublicationDisabled(i, b) => if i == id then b else LatestEnabled(since, id, isEnabled)
            case _ => LatestEnabled(since, id, isEnabled)
  {
    assert (since + [e])[..|since|] == since;
  }

  lemma StillOneMore(t: Tables, e: Event, t': Tables, n: Option<Notice>, was: PublicationBody, id: Id,
                     since: seq<Event>)
    requires Effect(t, e.change, t', n) && id in t.publications && id in t'.publications
    requires IsStill(t.publications[id], was, id, since)
    ensures IsStill(t'.publications[id], was, id, since + [e])
  {
    EditsOneMore(since, e, id, was.metadata, was.isEnabled);
  }

  // ---- Publications -----------------------------------------------------------------------

  /** A publication is in the list exactly if its last publishing or unpublishing is a publishing. */
  lemma {:induction false} PublishedIff(c: Channel, events: seq<Event>, id: Id)
    ensures id in Table(Fold(c, events).publications) <==>
            || (id in Table(c.publications) && NeverHappens(events, StreamUnpublished(id)))
            || exists i: nat :: PublishesLast(events, i, id)
    decreases |events|
  {
    if events != [] {
      var before, e := events[..|events| - 1], events[|events| - 1];
      assert events == before + [e];
      PublishedIff(c, before, id);
      var n := FoldOne(c, before, e);
      NeverOneMore(before, e, StreamUnpublished(id));
      LastOneMore(before, e, id);
    }
  }

  lemma LastOneMore(before: seq<Event>, e: Event, id: Id)
    ensures (exists i: nat :: PublishesLast(before + [e], i, id)) <==>
            || (e.change.StreamPublished? && e.change.publication.id == id)
            || (e.change != StreamUnpublished(id) && exists i: nat :: PublishesLast(before, i, id))
  {
    var events := before + [e];
    LastIsLast(before, e, id);
    forall i: nat | i < |before|
      ensures PublishesLast(events, i, id) <==> PublishesLast(before, i, id) && e.change != StreamUnpublished(id)
    {
      SuffixOneMore(before, e, i);
      NeverOneMore(before[i + 1..], e, StreamUnpublished(id));
    }
  }

  lemma LastIsLast(before: seq<Event>, e: Event, id: Id)
    ensures PublishesLast(before + [e], |before|, id) <==> e.change.StreamPublished? && e.change.publication.id == id
  {
    assert (before + [e])[|before| + 1..] == [];
  }

  /**
   Every publication in the list is one of the snapshot, never unpublished since, or goes back to
   the event that introduced it: its publisher, origin, content type and encodings are those named
   there, its metadata and enabled flag those of the latest event about them.
   */
  lemma {:induction false} PublicationHistory(c: Channel, events: seq<Event>, id: Id)
    requires id in Table(Fold(c, events).publications)
    ensures var p := Table(Fold(c, events).publications)[id];
            || (id in Table(c.publications) && NeverHappens(events, StreamUnpublished(id))
                && IsStill(p, Table(c.publications)[id], id, events))
            || exists i: nat :: IntroducesPublication(c, events, i, id)
                           && IsPublished(p, events[i].change.publication, events[i + 1..])
    decreases |events|
  {
    if events != [] {
      var before, e := events[..|events| - 1], events[|events| - 1];
      assert events == before + [e];
      var n := FoldOne(c, before, e);
      if id in Table(Fold(c, before).publications) {
        PublicationHistory(c, before, id);
        var p := Table(Fold(c, before).publications)[id];
        if id in Table(c.publications) && NeverHappens(before, StreamUnpublished(id))
           && IsStill(p, Table(c.publications)[id], id, before) {
          KeptPublication(c, before, e, id);
        } else {
          var i: nat :| IntroducesPublication(c, before, i, id)
            && IsPublished(p, before[i].change.publication, before[i + 1..]);
          EditedPublication(c, before, e, id, i);
        }
      } else {
        NewPublication(c, before, e, id);
      }
    }
  }

  lemma KeptPublication(c: Channel, before: seq<Event>, e: Event, id: Id)
    requires id in Table(c.publications) && NeverHappens(before, StreamUnpublished(id))
    requires id in Table(Fold(c, before).publications) && id in Table(Fold(c, before + [e]).publications)
    requires IsStill(Table(Fold(c, before).publications)[id], Table(c.publications)[id], id, before)
    ensures NeverHappens(before + [e], StreamUnpublished(id))
    ensures IsStill(Table(Fold(c, before + [e]).publications)[id], Table(c.publications)[id], id, before + [e])
  {
    var n := FoldOne(c, before, e);
    NeverOneMore(before, e, StreamUnpublished(id));
    StillOneMore(TablesOf(Fold(c, before)), e, TablesOf(Fold(c, before + [e])), n, Table(c.publications)[id], id,
                 before);
  }

  lemma EditedPublication(c: Channel, before: seq<Event>, e: Event, id: Id, i: nat)
    requires IntroducesPublication(c, before, i, id)
    requires id in Table(Fold(c, before).publications) && id in Table(Fold(c, before + [e]).publications)
    requires IsPublished(Table(Fold(c, before).publications)[id], before[i].change.publication, before[i + 1..])
    ensures var events := before + [e];
            && IntroducesPublication(c, events, i, id)
            && IsPublished(Table(Fold(c, events).publications)[id], events[i].change.publication, events[i + 1..])
  {
    var n := FoldOne(c, before, e);
    SuffixOneMore(before, e, i);
    NeverOneMore(before[i + 1..], e, StreamUnpublished(id));
    var s := before[i].change.publication;
    EditsOneMore(before[i + 1..], e, id, s.metadata, s.isEnabled);
  }

  lemma NewPublication(c: Channel, before: seq<Event>, e: Event, id: Id)
    requires id !in Table(Fold(c, before).publications) && id in Table(Fold(c, before + [e]).publications)
    ensures var (events, i) := (before + [e], |before|);
            && IntroducesPublication(c, events, i, id)
            && IsPublished(Table(Fold(c, events).publications)[id], events[i].change.publication, events[i + 1..])
  {
    var n := FoldOne(c, before, e);
    var events := before + [e];
    assert events[|before| + 1..] == [] && events[..|before|] == before;
  }

  // ---- Subscriptions, members and the channel itself --------------------------------------

  /** Every subscription is one of the snapshot or names what the event that introduced it named. */
  lemma {:induction false} SubscriptionHistory(c: Channel, events: seq<Event>, id: Id)
    requires id in Table(Fold(c, events).subscriptions)
    ensures || (id in Table(c.subscriptions) && NeverHappens(events, StreamUnsubscribed(id))
                && Table(Fold(c, events).subscriptions)[id] == Table(c.subscriptions)[id])
            || exists i: nat :: SubscribedAt(c, events, i, id)
    decreases |events|
  {
    if events != [] {
      var before, e := events[..|events| - 1], events[|events| - 1];
      assert events == before + [e];
      var n := FoldOne(c, before, e);
      NeverOneMore(before, e, StreamUnsubscribed(id));
      if id in Table(Fold(c, before).subscriptions) {
        SubscriptionHistory(c, before, id);
        if i: nat :| SubscribedAt(c, before, i, id) {
          StillSubscribed(c, before, e, id, i);
        }
      } else {
        NewSubscription(c, before, e, id);
      }
    }
  }

  /** The subscription was introduced by event `i` and holds what that names. */
  ghost predicate SubscribedAt(c: Channel, events: seq<Event>, i: nat, id: Id)
  {
    && IntroducesSubscription(c, events, i, id)
    && id in Table(Fold(c, events).subscriptions)
    && IsSubscribed(Table(Fold(c, events).subscriptions)[id], events[i].change.subscription,
                    Table(Fold(c, events[..i]).publications))
  }

  lemma StillSubscribed(c: Channel, before: seq<Event>, e: Event, id: Id, i: nat)
    requires SubscribedAt(c, before, i, id) && id in Table(Fold(c, before + [e]).subscriptions)
    ensures SubscribedAt(c, before + [e], i, id)
  {
    var n := FoldOne(c, before, e);
    SuffixOneMore(before, e, i);
    NeverOneMore(before[i + 1..], e, StreamUnsubscribed(id));
  }

  lemma NewSubscription(c: Channel, before: seq<Event>, e: Event, id: Id)
    requires id !in Table(Fold(c, before).subscriptions) && id in Table(Fold(c, before + [e]).subscriptions)
    ensures SubscribedAt(c, before + [e], |before|, id)
  {
    var n := FoldOne(c, before, e);
    assert (before + [e])[|before| + 1..] == [] && (before + [e])[..|before|] == before;
  }

  /** Every member is one of the snapshot or has the type it joined with; its metadata is the latest. */
  lemma {:induction false} MemberHistory(c: Channel, events: seq<Event>, id: Id)
    requires id in Table(Fold(c, events).members)
    ensures || StillMember(c, events, id)
            || exists i: nat :: JoinedAt(c, events, i, id)
    decreases |events|
  {
    if events != [] {
      var before, e := events[..|events| - 1], events[|events| - 1];
      assert events == before + [e];
      if id in Table(Fold(c, before).members) {
        MemberHistory(c, before, id);
        if StillMember(c, before, id) {
          MemberStays(c, before, e, id);
        } else {
          var i: nat :| JoinedAt(c, before, i, id);
          JoinedStays(c, before, e, id, i);
        }
      } else {
        NewMember(c, before, e, id);
      }
    }
  }

  /** The member is one of the snapshot. */
  ghost predicate StillMember(c: Channel, events: seq<Event>, id: Id)
  {
    && id in Table(c.members) && NeverHappens(events, MemberRemoved(id))
    && id in Table(Fold(c, events).members)
    && IsMember(Table(Fold(c, events).members)[id], Table(c.members)[id], id, events)
  }

  /** The member joined with event `i`. */
  ghost predicate JoinedAt(c: Channel, events: seq<Event>, i: nat, id: Id)
  {
    && IntroducesMember(c, events, i, id)
    && id in Table(Fold(c, events).members)
    && IsMember(Table(Fold(c, events).members)[id], events[i].change.member.body, id, events[i + 1..])
  }

  lemma MemberStays(c: Channel, before: seq<Event>, e: Event, id: Id)
    requires StillMember(c, before, id) && id in Table(Fold(c, before + [e]).members)
    ensures StillMember(c, before + [e], id)
  {
    var n := FoldOne(c, before, e);
    NeverOneMore(before, e, MemberRemoved(id));
    MemberEffect(TablesOf(Fold(c, before)), e, TablesOf(Fold(c, before + [e])), n, id, Table(c.members)[id], before);
  }

  lemma JoinedStays(c: Channel, before: seq<Event>, e: Event, id: Id, i: nat)
    requires JoinedAt(c, before, i, id) && id in Table(Fold(c, before + [e]).members)
    ensures JoinedAt(c, before + [e], i, id)
  {
    var n := FoldOne(c, before, e);
    SuffixOneMore(before, e, i);
    NeverOneMore(before[i + 1..], e, MemberRemoved(id));
    MemberEffect(TablesOf(Fold(c, before)), e, TablesOf(Fold(c, before + [e])), n, id, before[i].change.member.body,
                 before[i + 1..]);
  }

  lemma MemberEffect(t: Tables, e: Event, t': Tables, n: Option<Notice>, id: Id, was: MemberBody, since: seq<Event>)
    requires Effect(t, e.change, t', n) && id in t.members && id in t'.members
    requires IsMember(t.members[id], was, id, since)
    ensures IsMember(t'.members[id], was, id, since + [e])
    ensures e.change != MemberRemoved(id)
  {
    MemberOneMore(since, e, id, was.metadata);
  }

  lemma NewMember(c: Channel, before: seq<Event>, e: Event, id: Id)
    requires id !in Table(Fold(c, before).members) && id in Table(Fold(c, before + [e]).members)
    ensures JoinedAt(c, before + [e], |before|, id)
  {
    var n := FoldOne(c, before, e);
    assert (before + [e])[|before| + 1..] == [] && (before + [e])[..|before|] == before;
  }

  lemma MemberOneMore(since: seq<Event>, e: Event, id: Id, metadata: Option<string>)
    ensures LatestMemberMetadata(since + [e], id, metadata) ==
            match e.change
            case MemberMetadataUpdated(i, m) => if i == id then m else LatestMemberMetadata(since, id, metadata)
            case _ => LatestMemberMetadata(since, id, metadata)
  {
    assert (since + [e])[..|since|] == since;
  }

  /** The channel's own metadata are those of the latest update, its version that of the last event. */
  lemma {:induction false} ChannelHistory(c: Channel, events: seq<Event>)
    ensures var t := Fold(c, events);
            && t.metadata == LatestChannelMetadata(events, c.metadata)
            && t.version == if events == [] then c.version else events[|events| - 1].version
    decreases |events|
  {
    if events != [] {
      ChannelHistory(c, events[..|events| - 1]);
      ApplyFields(Fold(c, events[..|events| - 1]), events[|events| - 1]);
    }
  }

  lemma ApplyFields(c: Channel, e: Event)
    ensures var c' := Apply(c, e).0;
            && c'.version == e.version
            && c'.metadata == if e.change.ChannelMetadataUpdated? then Some(e.change.channelMetadata) else c.metadata
  {
  }
}
