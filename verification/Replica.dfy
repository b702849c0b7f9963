/** The replicated channel state that `ChannelImpl` folds the event log into. */
module Replica {
  import opened Util
  import opened Entries

  datatype ContentType = Audio | Video | Data
  datatype MemberType = Person | Bot

  datatype MemberBody = MemberBody(kind: MemberType, metadata: Option<string>)
  datatype PublicationBody = PublicationBody(
    publisherId: Id, origin: Option<Id>, contentType: ContentType,
    metadata: Option<string>, isEnabled: bool, encodings: seq<string>)
  datatype SubscriptionBody = SubscriptionBody(
    publicationId: Id, subscriberId: Id, publisherId: Id, contentType: ContentType)

  type Member = Entry<MemberBody>
  type Publication = Entry<PublicationBody>
  type Subscription = Entry<SubscriptionBody>

  /** The publication in an event: its encodings may be left out. */
  datatype PublicationSummary = PublicationSummary(
    id: Id, publisherId: Id, origin: Option<Id>, contentType: ContentType,
    metadata: Option<string>, isEnabled: bool, encodings: Option<seq<string>>)

  /** The subscription in an event: without its publisher and content type. */
  datatype SubscriptionSummary = SubscriptionSummary(id: Id, publicationId: Id, subscriberId: Id)

  datatype Change =
    | ChannelCreated
    | ChannelDeleted
    | ChannelMetadataUpdated(channelMetadata: string)
    | MemberAdded(member: Member)
    | MemberRemoved(id: Id)
    | MemberMetadataUpdated(id: Id, metadata: Option<string>)
    | StreamPublished(publication: PublicationSummary)
    | StreamUnpublished(id: Id)
    | PublicationMetadataUpdated(id: Id, metadata: Option<string>)
    | PublicationDisabled(id: Id, isEnabled: bool)
    | PublicationEnabled(id: Id, isEnabled: bool)
    | StreamSubscribed(subscription: SubscriptionSummary)
    | StreamUnsubscribed(id: Id)

  /** An event carries the channel version it leads to. */
  datatype Event = Event(version: nat, change: Change)

  datatype Channel = Channel(
    version: nat, metadata: Option<string>,
    members: seq<Member>, publications: seq<Publication>, subscriptions: seq<Subscription>)

  /** What `ChannelImpl` emits to its listeners. */
  datatype Notice =
    | OnClosed
    | OnMetadataUpdated(channelMetadata: string)
    | OnMemberJoined(member: Member)
    | OnMemberLeft(member: Member)
    | OnMemberMetadataUpdated(id: Id, metadata: Option<string>)
    | OnStreamPublished(publication: Publication)
    | OnStreamUnpublished(publication: Publication)
    | OnPublicationChanged(publication: Publication)
    | OnSubscribed(subscription: Subscription)
    | OnUnsubscribed(subscription: Subscription)

  function FromSummary(p: PublicationSummary): Publication
  {
    Entry(p.id, PublicationBody(p.publisherId, p.origin, p.contentType, p.metadata, p.isEnabled,
                                if p.encodings.Some? then p.encodings.value else []))
  }

  /** Applies one event; a handler that throws changes nothing and emits nothing. */
  function Apply(c: Channel, e: Event): (Channel, Option<Notice>)
  {
    var c := c.(version := e.version);
    match e.change
    case ChannelCreated => (c, None)
    case ChannelDeleted => (c, Some(OnClosed))
    case ChannelMetadataUpdated(m) => (c.(metadata := Some(m)), Some(OnMetadataUpdated(m)))
    case MemberAdded(m) => (c.(members := Add(c.members, m)), Some(OnMemberJoined(m)))
    case MemberRemoved(id) =>
      (match Get(c.members, id)
       case None => (c, None)
       case Some(m) => (c.(members := Delete(c.members, id)), Some(OnMemberLeft(m))))
    case MemberMetadataUpdated(id, metadata) =>
      (match Get(c.members, id)
       case None => (c, None)
       case Some(m) =>
         (c.(members := Assign(c.members, id, m.body.(metadata := metadata))),
          Some(OnMemberMetadataUpdated(id, metadata))))
    case StreamPublished(summary) =>
      var publications := Add(c.publications, FromSummary(summary));
      (c.(publications := publications),
       match Get(publications, summary.id)
       case None => None
       case Some(p) => Some(OnStreamPublished(p)))
    case StreamUnpublished(id) =>
      (match Get(c.publications, id)
       case None => (c, None)
       case Some(p) => (c.(publications := Delete(c.publications, id)), Some(OnStreamUnpublished(p))))
    case PublicationMetadataUpdated(id, metadata) => ApplyToPublication(c, id, SetMetadata(metadata))
    case PublicationDisabled(id, isEnabled) => ApplyToPublication(c, id, SetEnabled(isEnabled))
    case PublicationEnabled(id, isEnabled) => ApplyToPublication(c, id, SetEnabled(isEnabled))
    case StreamSubscribed(s) =>
      (match Get(c.subscriptions, s.id)
       case Some(exist) => (c, Some(OnSubscribed(exist)))
       case None =>
         match Get(c.publications, s.publicationId)
         case None => (c, None)
         case Some(p) =>
           var subscription := FromSubscribed(s, p.body);
           (c.(subscriptions := c.subscriptions + [subscription]), Some(OnSubscribed(subscription))))
    case StreamUnsubscribed(id) =>
      (match Get(c.subscriptions, id)
       case None => (c, None)
       case Some(s) => (c.(subscriptions := Delete(c.subscriptions, id)), Some(OnUnsubscribed(s))))
  }

  function FromSubscribed(s: SubscriptionSummary, p: PublicationBody): Subscription
  {
    Entry(s.id, SubscriptionBody(s.publicationId, s.subscriberId, p.publisherId, p.contentType))
  }

  /** The fields of a publication that an event overwrites in place. */
  datatype Edit = SetMetadata(metadata: Option<string>) | SetEnabled(isEnabled: bool)

  function Edited(b: PublicationBody, edit: Edit): PublicationBody
  {
    match edit
    case SetMetadata(m) => b.(metadata := m)
    case SetEnabled(en) => b.(isEnabled := en)
  }

  function ApplyToPublication(c: Channel, id: Id, edit: Edit): (Channel, Option<Notice>)
  {
    match Get(c.publications, id)
    case None => (c, None)
    case Some(p) =>
      var p' := p.(body := Edited(p.body, edit));
      (c.(publications := Assign(c.publications, id, p'.body)), Some(OnPublicationChanged(p')))
  }

  /** The channel after a run of events. */
  function Fold(c: Channel, events: seq<Event>): Channel
    decreases |events|
  {
    if events == [] then c
    else Apply(Fold(c, events[..|events| - 1]), events[|events| - 1]).0
  }

  lemma {:induction false} FoldConcat(c: Channel, xs: seq<Event>, ys: seq<Event>)
    ensures Fold(c, xs + ys) == Fold(Fold(c, xs), ys)
    decreases |ys|
  {
    if ys == [] {
      assert xs + ys == xs;
    } else {
      assert (xs + ys)[..|xs + ys| - 1] == xs + ys[..|ys| - 1];
      FoldConcat(c, xs, ys[..|ys| - 1]);
    }
  }

  // ---- Invariants of the lists ------------------------------------------------------------

  /** No list holds an id twice. */
  ghost predicate UniqueIds(c: Channel)
  {
    Unique(c.members) && Unique(c.publications) && Unique(c.subscriptions)
  }

  /** Every subscription refers to a live publication and repeats its publisher and content type. */
  ghost predicate References(c: Channel)
  {
    forall id :: id in Table(c.subscriptions) ==> RefersTo(Table(c.subscriptions)[id], Table(c.publications))
  }

  predicate RefersTo(s: SubscriptionBody, publications: map<Id, PublicationBody>)
  {
    && s.publicationId in publications
    && s.publisherId == publications[s.publicationId].publisherId
    && s.contentType == publications[s.publicationId].contentType
  }

  /** The event unpublishes a publication that still has a subscription. */
  ghost predicate Orphans(c: Channel, e: Event)
  {
    && e.change.StreamUnpublished?
    && exists id :: id in Table(c.subscriptions) && Table(c.subscriptions)[id].publicationId == e.change.id
  }

  datatype Tables = Tables(
    members: map<Id, MemberBody>, publications: map<Id, PublicationBody>, subscriptions: map<Id, SubscriptionBody>)

  ghost function TablesOf(c: Channel): Tables
  {
    Tables(Table(c.members), Table(c.publications), Table(c.subscriptions))
  }

  /** What one event does to the tables, and what it makes the channel emit. */
  ghost predicate Effect(t: Tables, change: Change, t': Tables, n: Option<Notice>)
  {
    var (ms, ps, ss) := (t.members, t.publications, t.subscriptions);
    match change
    case MemberAdded(m) =>
      && t' == t.(members := if m.id in ms then ms else ms[m.id := m.body])
      && n == Some(OnMemberJoined(m))
    case MemberRemoved(id) =>
      && t' == t.(members := ms - {id})
      && n == (if id in ms then Some(OnMemberLeft(Entry(id, ms[id]))) else None)
    case MemberMetadataUpdated(id, md) =>
      && t' == t.(members := if id in ms then ms[id := ms[id].(metadata := md)] else ms)
      && n == (if id in ms then Some(OnMemberMetadataUpdated(id, md)) else None)
    case StreamPublished(p) =>
      && t' == t.(publications := if p.id in ps then ps else ps[p.id := FromSummary(p).body])
      && n == Some(OnStreamPublished(Entry(p.id, t'.publications[p.id])))
    case StreamUnpublished(id) =>
      && t' == t.(publications := ps - {id})
      && n == (if id in ps then Some(OnStreamUnpublished(Entry(id, ps[id]))) else None)
    case StreamSubscribed(s) =>
      if s.id in ss then t' == t && n == Some(OnSubscribed(Entry(s.id, ss[s.id])))
      else if s.publicationId !in ps then t' == t && n == None
      else
        var sub := FromSubscribed(s, ps[s.publicationId]);
        t' == t.(subscriptions := ss[s.id := sub.body]) && n == Some(OnSubscribed(sub))
    case StreamUnsubscribed(id) =>
      && t' == t.(subscriptions := ss - {id})
      && n == (if id in ss then Some(OnUnsubscribed(Entry(id, ss[id]))) else None)
    case PublicationMetadataUpdated(id, md) => EditEffect(t, id, SetMetadata(md), t', n)
    case PublicationDisabled(id, en) => EditEffect(t, id, SetEnabled(en), t', n)
    case PublicationEnabled(id, en) => EditEffect(t, id, SetEnabled(en), t', n)
    case ChannelCreated => t' == t && n == None
    case ChannelDeleted => t' == t && n == Some(OnClosed)
    case ChannelMetadataUpdated(md) => t' == t && n == Some(OnMetadataUpdated(md))
  }

  ghost predicate EditEffect(t: Tables, id: Id, edit: Edit, t': Tables, n: Option<Notice>)
  {
    var ps := t.publications;
    && t' == t.(publications := if id in ps then ps[id := Edited(ps[id], edit)] else ps)
    && n == (if id in ps then Some(OnPublicationChanged(Entry(id, Edited(ps[id], edit)))) else None)
  }

  /** `Apply` through the eyes of `find`. */
  lemma ApplyTables(c: Channel, e: Event)
    ensures Effect(TablesOf(c), e.change, TablesOf(Apply(c, e).0), Apply(c, e).1)
  {
    match e.change
    case MemberAdded(m) => AddTable(c.members, m);
    case MemberRemoved(id) => GetTable(c.members, id); DeleteTable(c.members, id);
    case MemberMetadataUpdated(id, md) =>
      GetTable(c.members, id);
      if id in Table(c.members) {
        AssignTable(c.members, id, Table(c.members)[id].(metadata := md));
      }
    case StreamPublished(p) =>
      AddTable(c.publications, FromSummary(p));
      GetTable(Add(c.publications, FromSummary(p)), p.id);
    case StreamUnpublished(id) => GetTable(c.publications, id); DeleteTable(c.publications, id);
    case StreamSubscribed(s) =>
      GetTable(c.subscriptions, s.id);
      GetTable(c.publications, s.publicationId);
      if s.id !in Table(c.subscriptions) && s.publicationId in Table(c.publications) {
        AppendTable(c.subscriptions, FromSubscribed(s, Table(c.publications)[s.publicationId]));
      }
    case StreamUnsubscribed(id) => GetTable(c.subscriptions, id); DeleteTable(c.subscriptions, id);
    case PublicationMetadataUpdated(id, md) => PublicationTables(c.(version := e.version), id, SetMetadata(md));
    case PublicationDisabled(id, en) => PublicationTables(c.(version := e.version), id, SetEnabled(en));
    case PublicationEnabled(id, en) => PublicationTables(c.(version := e.version), id, SetEnabled(en));
    case _ =>
  }

  lemma PublicationTables(c: Channel, id: Id, edit: Edit)
    ensures var (c', n) := ApplyToPublication(c, id, edit);
            EditEffect(TablesOf(c), id, edit, TablesOf(c'), n)
  {
    GetTable(c.publications, id);
    if id in Table(c.publications) {
      AssignTable(c.publications, id, Edited(Table(c.publications)[id], edit));
    }
  }

  /** Ids stay unique whatever the log holds. */
  lemma ApplyUnique(c: Channel, e: Event)
    requires UniqueIds(c)
    ensures UniqueIds(Apply(c, e).0)
  {
    match e.change
    case MemberAdded(m) => AddUnique(c.members, m);
    case MemberRemoved(id) => DeleteUnique(c.members, id);
    case MemberMetadataUpdated(id, md) =>
      if Get(c.members, id).Some? {
        AssignUnique(c.members, id, Get(c.members, id).value.body.(metadata := md));
      }
    case StreamPublished(p) => AddUnique(c.publications, FromSummary(p));
    case StreamUnpublished(id) => DeleteUnique(c.publications, id);
    case PublicationMetadataUpdated(id, md) => AssignPublication(c, id, SetMetadata(md));
    case PublicationDisabled(id, en) => AssignPublication(c, id, SetEnabled(en));
    case PublicationEnabled(id, en) => AssignPublication(c, id, SetEnabled(en));
    case StreamSubscribed(s) =>
      match Get(c.publications, s.publicationId) {
        case None =>
        case Some(p) => AddUnique(c.subscriptions, FromSubscribed(s, p.body));
      }
    case StreamUnsubscribed(id) => DeleteUnique(c.subscriptions, id);
    case _ =>
  }

  lemma AssignPublication(c: Channel, id: Id, edit: Edit)
    requires Unique(c.publications)
    ensures Unique(ApplyToPublication(c, id, edit).0.publications)
  {
    match Get(c.publications, id) {
      case None =>
      case Some(p) => AssignUnique(c.publications, id, Edited(p.body, edit));
    }
  }

  /** References are kept by every event except the unpublishing of a subscribed publication. */
  lemma ReferencesKeptIff(c: Channel, e: Event)
    requires References(c)
    ensures References(Apply(c, e).0) <==> !Orphans(c, e)
  {
    ApplyTables(c, e);
    var c' := Apply(c, e).0;
    if Orphans(c, e) {
      var id :| id in Table(c.subscriptions) && Table(c.subscriptions)[id].publicationId == e.change.id;
      assert !RefersTo(Table(c'.subscriptions)[id], Table(c'.publications));
    } else {
      forall id | id in Table(c'.subscriptions)
        ensures RefersTo(Table(c'.subscriptions)[id], Table(c'.publications))
      {
        assert id in Table(c.subscriptions) ==> RefersTo(Table(c.subscriptions)[id], Table(c.publications));
      }
    }
  }

  // ---- The class --------------------------------------------------------------------------

  class ChannelImpl {
    var version: nat
    var metadata: Option<string>
    var members: seq<Member>
    var publications: seq<Publication>
    var subscriptions: seq<Subscription>

    ghost function Model(): Channel
      reads this
    {
      Channel(version, metadata, members, publications, subscriptions)
    }

    constructor (dto: Channel)
      ensures Model() == dto
    {
      version, metadata := dto.version, dto.metadata;
      members, publications, subscriptions := dto.members, dto.publications, dto.subscriptions;
    }

    /** The listener of `eventObserver.onEvent`; `notice` is what it emits. */
    method OnEvent(e: Event) returns (notice: Option<Notice>)
      modifies this
      ensures Model() == Apply(old(Model()), e).0 && notice == Apply(old(Model()), e).1
    {
      version := e.version;
      match e.change {
        case ChannelCreated => notice := None;
        case ChannelDeleted => notice := Some(OnClosed);
        case ChannelMetadataUpdated(m) =>
          metadata := Some(m);
          notice := Some(OnMetadataUpdated(m));
        case MemberAdded(m) =>
          AddMember(m);
          notice := Some(OnMemberJoined(m));
        case MemberRemoved(id) =>
          var found := Get(members, id);
          if found.None? { return None; }
          GetTable(members, id);
          members := Delete(members, found.value.id);
          notice := Some(OnMemberLeft(found.value));
        case MemberMetadataUpdated(id, md) =>
          var found := Get(members, id);
          if found.None? { return None; }
          members := Assign(members, id, found.value.body.(metadata := md));
          notice := Some(OnMemberMetadataUpdated(id, md));
        case StreamPublished(summary) =>
          var publication := AddPublication(summary);
          notice := Some(OnStreamPublished(publication));
        case StreamUnpublished(id) =>
          var found := Get(publications, id);
          if found.None? { return None; }
          GetTable(publications, id);
          publications := Delete(publications, found.value.id);
          notice := Some(OnStreamUnpublished(found.value));
        case PublicationMetadataUpdated(id, md) =>
          notice := UpdatePublication(id, SetMetadata(md));
        case PublicationDisabled(id, en) =>
          notice := UpdatePublication(id, SetEnabled(en));
        case PublicationEnabled(id, en) =>
          notice := UpdatePublication(id, SetEnabled(en));
        case StreamSubscribed(summary) =>
          var subscription := AddSubscription(summary);
          if subscription.None? { return None; }
          notice := Some(OnSubscribed(subscription.value));
        case StreamUnsubscribed(id) =>
          var found := Get(subscriptions, id);
          if found.None? { return None; }
          GetTable(subscriptions, id);
          subscriptions := Delete(subscriptions, found.value.id);
          notice := Some(OnUnsubscribed(found.value));
      }
    }

    method AddMember(member: Member)
      modifies this`members
      ensures members == Add(old(members), member)
    {
      var exist := Get(members, member.id);
      if exist.Some? {
        return;
      }
      members := members + [member];
    }

    method AddPublication(summary: PublicationSummary) returns (publication: Publication)
      modifies this`publications
      ensures publications == Add(old(publications), FromSummary(summary))
      ensures Get(publications, summary.id) == Some(publication)
    {
      var exist := Get(publications, summary.id);
      if exist.Some? {
        return exist.value;
      }
      publication := FromSummary(summary);
      AddTable(publications, publication);
      publications := publications + [publication];
      GetTable(publications, summary.id);
      GetTable(old(publications), summary.id);
    }

    /** `None` stands for the exception thrown when the publication is unknown. */
    method AddSubscription(summary: SubscriptionSummary) returns (subscription: Option<Subscription>)
      modifies this`subscriptions
      ensures var exist := Get(old(subscriptions), summary.id);
              var publication := Get(publications, summary.publicationId);
              if exist.Some? then subscription == exist && subscriptions == old(subscriptions)
              else if publication.None? then subscription == None && subscriptions == old(subscriptions)
              else subscription == Some(FromSubscribed(summary, publication.value.body))
                   && subscriptions == old(subscriptions) + [subscription.value]
    {
      var exist := Get(subscriptions, summary.id);
      if exist.Some? {
        return exist;
      }
      var publication := Get(publications, summary.publicationId);
      if publication.None? {
        return None;
      }
      subscription := Some(FromSubscribed(summary, publication.value.body));
      subscriptions := subscriptions + [subscription.value];
    }

    method UpdatePublication(id: Id, edit: Edit) returns (notice: Option<Notice>)
      modifies this`publications
      ensures ApplyToPublication(old(Model()), id, edit) == (Model(), notice)
    {
      var found := Get(publications, id);
      if found.None? {
        return None;
      }
      var publication := found.value.(body := Edited(found.value.body, edit));
      publications := Assign(publications, id, publication.body);
      notice := Some(OnPublicationChanged(publication));
    }
  }
}
