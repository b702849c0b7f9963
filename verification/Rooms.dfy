/** The two rooms that project a channel: `SfuRoomImpl` filters, `P2PRoomImpl` shows everything. */
module Rooms {
  import opened Util
  import opened Entries
  import opened Replica
  import opened Mirror

  datatype RoomPublication = RoomPublication(publisherId: Id, contentType: ContentType)
  datatype RoomSubscription = RoomSubscription(publicationId: Id, contentType: ContentType)

  datatype Room = Room(
    members: map<Id, MemberType>,
    publications: map<Id, RoomPublication>,
    subscriptions: map<Id, RoomSubscription>)

  /** The publisher a room shows: that of the origin for a relayed publication. */
  function ShownPublisher(p: PublicationObject): Option<Id>
  {
    if p.origin.Some? then p.origin.value.publisher else p.publisher
  }

  /** `_addPublication`; without a publisher the constructor of the room's object throws. */
  function AddRoomPublication(r: Room, id: Id, p: PublicationObject): Room
  {
    if id in r.publications || ShownPublisher(p).None? then r
    else r.(publications := r.publications[id := RoomPublication(ShownPublisher(p).value, p.contentType)])
  }

  /** `_addSubscription`; without a subscriber the constructor of the room's object throws. */
  function AddRoomSubscription(r: Room, id: Id, s: SubscriptionObject): Room
  {
    if id in r.subscriptions || s.subscriber.None? then r
    else r.(subscriptions := r.subscriptions[id := RoomSubscription(s.publicationId, s.contentType)])
  }

  function SfuStep(r: Room, s: Signal): Room
  {
    match s
    case MemberJoined(id, kind) => if kind == Bot then r else r.(members := r.members[id := kind])
    case MemberLeft(id, kind) => if id in r.members then r.(members := r.members - {id}) else r
    case Published(id, p) => if p.origin.None? then r else AddRoomPublication(r, id, p)
    case Unpublished(id, p) => if p.origin.None? then r else r.(publications := r.publications - {id})
    case Subscribed(id, s) =>
      if s.subscriber.None? || s.subscriber.value == Bot then r else AddRoomSubscription(r, id, s)
    case Unsubscribed(id, s) =>
      if s.subscriber.None? || s.subscriber.value == Bot then r
      else r.(subscriptions := r.subscriptions - {id})
    case Other => r
  }

  function P2pStep(r: Room, s: Signal): Room
  {
    match s
    case MemberJoined(id, kind) => if id in r.members then r else r.(members := r.members[id := kind])
    case MemberLeft(id, kind) => r.(members := r.members - {id})
    case Published(id, p) => AddRoomPublication(r, id, p)
    case Unpublished(id, p) => r.(publications := r.publications - {id})
    case Subscribed(id, s) => AddRoomSubscription(r, id, s)
    case Unsubscribed(id, s) => r.(subscriptions := r.subscriptions - {id})
    case Other => r
  }

  function RoomStep(sfu: bool, r: Room, s: Option<Signal>): Room
  {
    if s.None? then r else if sfu then SfuStep(r, s.value) else P2pStep(r, s.value)
  }

  // ---- What a room should show ------------------------------------------------------------

  /** Every publication found its publisher, and every subscription its subscriber. */
  ghost predicate Known(m: Mirror)
  {
    && (forall id :: id in m.publications ==>
          && m.publications[id].publisher.Some?
          && ShownPublisher(m.publications[id]).Some?)
    && (forall id :: id in m.subscriptions ==> m.subscriptions[id].subscriber.Some?)
  }

  /**
   An SFU room shows the members that are not bots, the publications that relay another one, and
   the subscriptions of members that are not bots; a P2P room shows all of each.
   */
  ghost function View(sfu: bool, m: Mirror): Room
  {
    Room(ViewMembers(sfu, m.members), ViewPublications(sfu, m.publications), ViewSubscriptions(sfu, m.subscriptions))
  }

  ghost function ViewMembers(sfu: bool, members: map<Id, MemberType>): map<Id, MemberType>
  {
    map id | id in members && (sfu ==> members[id] != Bot) :: members[id]
  }

  ghost function ViewPublications(sfu: bool, ps: map<Id, PublicationObject>): map<Id, RoomPublication>
  {
    map id | id in ps && ShownPublisher(ps[id]).Some? && (sfu ==> ps[id].origin.Some?) ::
      RoomPublication(ShownPublisher(ps[id]).value, ps[id].contentType)
  }

  ghost function ViewSubscriptions(sfu: bool, ss: map<Id, SubscriptionObject>): map<Id, RoomSubscription>
  {
    map id | id in ss && ss[id].subscriber.Some? && (sfu ==> ss[id].subscriber.value != Bot) ::
      RoomSubscription(ss[id].publicationId, ss[id].contentType)
  }

  /** The event publishes and subscribes for members that are present. */
  ghost predicate NamesPresent(t: Tables, change: Change)
  {
    match change
    case StreamPublished(p) => p.id in t.publications || p.publisherId in t.members
    case StreamSubscribed(s) =>
      s.id in t.subscriptions || s.publicationId !in t.publications || s.subscriberId in t.members
    case _ => true
  }

  /** The event ends a subscription, shown by the room, whose publication is gone already. */
  ghost predicate Dangling(sfu: bool, m: Mirror, change: Change)
  {
    && change.StreamUnsubscribed?
    && change.id in m.subscriptions
    && m.subscriptions[change.id].publicationId !in m.publications
    && (sfu ==> m.subscriptions[change.id].subscriber != Some(Bot))
  }

  lemma ViewMembersSet(sfu: bool, members: map<Id, MemberType>, id: Id, kind: MemberType)
    requires id !in members
    ensures ViewMembers(sfu, members[id := kind]) ==
            if sfu && kind == Bot then ViewMembers(sfu, members) else ViewMembers(sfu, members)[id := kind]
  {
  }

  lemma ViewPublicationsSet(sfu: bool, ps: map<Id, PublicationObject>, id: Id, p: PublicationObject)
    requires id !in ps
    ensures ViewPublications(sfu, ps[id := p]) ==
            if ShownPublisher(p).None? || (sfu && p.origin.None?) then ViewPublications(sfu, ps)
            else ViewPublications(sfu, ps)[id := RoomPublication(ShownPublisher(p).value, p.contentType)]
  {
  }

  lemma ViewSubscriptionsSet(sfu: bool, ss: map<Id, SubscriptionObject>, id: Id, s: SubscriptionObject)
    requires id !in ss
    ensures ViewSubscriptions(sfu, ss[id := s]) ==
            if s.subscriber.None? || (sfu && s.subscriber.value == Bot) then ViewSubscriptions(sfu, ss)
            else ViewSubscriptions(sfu, ss)[id := RoomSubscription(s.publicationId, s.contentType)]
  {
  }

  lemma MemberJoinedShown(sfu: bool, m: Mirror, member: Member)
    ensures var (m', s) := Handle(m, OnMemberJoined(member));
            RoomStep(sfu, View(sfu, m), s) == View(sfu, m')
  {
    var (m', s) := Handle(m, OnMemberJoined(member));
    var r := View(sfu, m);
    if member.id in m.members {
      assert m' == m;
      assert r.members[member.id := m.members[member.id]] == r.members || (sfu && m.members[member.id] == Bot);
    } else {
      ViewMembersSet(sfu, m.members, member.id, member.body.kind);
    }
  }

  lemma MemberLeftShown(sfu: bool, m: Mirror, member: Member)
    ensures var (m', s) := Handle(m, OnMemberLeft(member));
            RoomStep(sfu, View(sfu, m), s) == View(sfu, m')
  {
    var (m', s) := Handle(m, OnMemberLeft(member));
    assert RoomStep(sfu, View(sfu, m), s).members == View(sfu, m').members;
  }

  lemma PublishedShown(sfu: bool, m: Mirror, p: Publication)
    ensures var (m', s) := Handle(m, OnStreamPublished(p));
            RoomStep(sfu, View(sfu, m), s) == View(sfu, m')
  {
    if p.id !in m.publications {
      ViewPublicationsSet(sfu, m.publications, p.id, CreatePublication(m, p));
    }
  }

  lemma UnpublishedShown(sfu: bool, m: Mirror, p: Publication)
    ensures var (m', s) := Handle(m, OnStreamUnpublished(p));
            RoomStep(sfu, View(sfu, m), s) == View(sfu, m')
  {
    var (m', s) := Handle(m, OnStreamUnpublished(p));
    assert RoomStep(sfu, View(sfu, m), s).publications == View(sfu, m').publications;
  }

  lemma SubscribedShown(sfu: bool, m: Mirror, sub: Subscription)
    ensures var (m', s) := Handle(m, OnSubscribed(sub));
            sub.body.publicationId in m.publications || sub.id in m.subscriptions ==>
              RoomStep(sfu, View(sfu, m), s) == View(sfu, m')
  {
    var (m', s) := Handle(m, OnSubscribed(sub));
    if sub.id in m.subscriptions {
      assert m'.subscriptions == m.subscriptions;
    } else if sub.body.publicationId in m.publications {
      ViewSubscriptionsSet(sfu, m.subscriptions, sub.id, CreateSubscription(m, sub));
    }
  }

  lemma UnsubscribedShown(sfu: bool, m: Mirror, sub: Subscription)
    requires Known(m)
    ensures var (m', s) := Handle(m, OnUnsubscribed(sub));
            RoomStep(sfu, View(sfu, m), s) == View(sfu, m') <==> !Dangling(sfu, m, StreamUnsubscribed(sub.id))
  {
    if sub.id in m.subscriptions {
      ViewSubscriptionsRemoved(sfu, m.subscriptions, sub.id);
      assert sub.id in ViewSubscriptions(sfu, m.subscriptions) <==>
          !sfu || m.subscriptions[sub.id].subscriber.value != Bot;
    }
  }

  lemma ViewSubscriptionsRemoved(sfu: bool, ss: map<Id, SubscriptionObject>, id: Id)
    ensures ViewSubscriptions(sfu, ss - {id}) == ViewSubscriptions(sfu, ss) - {id}
    ensures id !in ViewSubscriptions(sfu, ss) ==> ViewSubscriptions(sfu, ss) - {id} == ViewSubscriptions(sfu, ss)
  {
  }

  lemma PublishedKnown(m: Mirror, p: Publication)
    requires Known(m) && (p.id in m.publications || p.body.publisherId in m.members)
    ensures Known(Handle(m, OnStreamPublished(p)).0)
  {
  }

  lemma OthersKnown(m: Mirror, n: Notice)
    requires Known(m) && !n.OnStreamPublished?
    requires n.OnSubscribed? && n.subscription.id !in m.subscriptions ==>
               || n.subscription.body.publicationId !in m.publications
               || n.subscription.body.subscriberId in m.members
    ensures Known(Handle(m, n).0)
  {
  }

  /**
   A room that shows the mirror still shows it after a notice, unless the notice ends a shown
   subscription whose publication is gone.
   */
  lemma NoticeShownIff(sfu: bool, m: Mirror, n: Notice)
    requires Known(m)
    requires n.OnStreamPublished? ==>
               n.publication.id in m.publications || n.publication.body.publisherId in m.members
    requires n.OnSubscribed? && n.subscription.id !in m.subscriptions ==>
               && n.subscription.body.publicationId in m.publications
               && n.subscription.body.subscriberId in m.members
    ensures var (m', s) := Handle(m, n);
            && Known(m')
            && (RoomStep(sfu, View(sfu, m), s) == View(sfu, m') <==>
                !(n.OnUnsubscribed? && Dangling(sfu, m, StreamUnsubscribed(n.subscription.id))))
  {
    if !n.OnStreamPublished? {
      OthersKnown(m, n);
    }
    match n {
      case OnMemberJoined(member) => MemberJoinedShown(sfu, m, member);
      case OnMemberLeft(member) => MemberLeftShown(sfu, m, member);
      case OnStreamPublished(p) => PublishedShown(sfu, m, p); PublishedKnown(m, p);
      case OnStreamUnpublished(p) => UnpublishedShown(sfu, m, p);
      case OnSubscribed(s) => SubscribedShown(sfu, m, s);
      case OnUnsubscribed(s) => UnsubscribedShown(sfu, m, s);
      case _ =>
    }
  }

  /**
   A room that shows the mirror still shows it after an event, unless the event ends a shown
   subscription whose publication was removed first; then the room is not told and keeps it.
   */
  lemma ShowsIff(sfu: bool, c: Channel, m: Mirror, e: Event)
    requires Synced(c, m) && Known(m) && NamesPresent(TablesOf(c), e.change)
    ensures var (m', s) := Follow(c, m, e);
            && Known(m')
            && (RoomStep(sfu, View(sfu, m), s) == View(sfu, m') <==> !Dangling(sfu, m, e.change))
  {
    ApplyTables(c, e);
    var n := Apply(c, e).1;
    if n.Some? {
      NoticeShownIff(sfu, m, n.value);
    }
  }

  // ---- Runs -------------------------------------------------------------------------------

  /** The channel, its mirror and the two rooms over it. */
  datatype Client = Client(channel: Channel, mirror: Mirror, sfu: Room, p2p: Room)

  function ClientStep(k: Client, e: Event): Client
  {
    var (m', s) := Follow(k.channel, k.mirror, e);
    Client(Apply(k.channel, e).0, m', RoomStep(true, k.sfu, s), RoomStep(false, k.p2p, s))
  }

  function ClientRun(k: Client, events: seq<Event>): Client
    decreases |events|
  {
    if events == [] then k
    else ClientStep(ClientRun(k, events[..|events| - 1]), events[|events| - 1])
  }

  /** The server publishes and subscribes for present entities, and unsubscribes before unpublishing. */
  ghost predicate WellOrdered(c: Channel, events: seq<Event>)
    decreases |events|
  {
    events == [] ||
    (var before, e := events[..|events| - 1], events[|events| - 1];
     && WellOrdered(c, before)
     && NamesPresent(TablesOf(Fold(c, before)), e.change)
     && !Orphans(Fold(c, before), e))
  }

  /** All four views of the channel agree. */
  ghost predicate Consistent(k: Client)
  {
    && UniqueIds(k.channel)
    && References(k.channel)
    && Synced(k.channel, k.mirror)
    && Known(k.mirror)
    && k.sfu == View(true, k.mirror)
    && k.p2p == View(false, k.mirror)
  }

  lemma {:induction false} ClientFollowsFold(k: Client, events: seq<Event>)
    ensures ClientRun(k, events).channel == Fold(k.channel, events)
    decreases |events|
  {
    if events != [] {
      ClientFollowsFold(k, events[..|events| - 1]);
    }
  }

  lemma NothingDangles(c: Channel, m: Mirror, sfu: bool, change: Change)
    requires References(c) && Synced(c, m)
    ensures !Dangling(sfu, m, change)
  {
    if change.StreamUnsubscribed? && change.id in m.subscriptions {
      assert RefersTo(Table(c.subscriptions)[change.id], Table(c.publications));
    }
  }

  /** The agreement survives every event of every well-ordered log. */
  lemma {:induction false} RoomsShowTheChannel(k: Client, events: seq<Event>)
    requires Consistent(k) && WellOrdered(k.channel, events)
    ensures Consistent(ClientRun(k, events))
    decreases |events|
  {
    if events != [] {
      var before, e := events[..|events| - 1], events[|events| - 1];
      RoomsShowTheChannel(k, before);
      ClientFollowsFold(k, before);
      var k1 := ClientRun(k, before);
      ApplyUnique(k1.channel, e);
      ReferencesKeptIff(k1.channel, e);
      FollowSynced(k1.channel, k1.mirror, e);
      NothingDangles(k1.channel, k1.mirror, true, e.change);
      NothingDangles(k1.channel, k1.mirror, false, e.change);
      ShowsIff(true, k1.channel, k1.mirror, e);
      ShowsIff(false, k1.channel, k1.mirror, e);
    }
  }

  // ---- Relayed publications ---------------------------------------------------------------

  /** The server publishes what is relayed before its relay. */
  ghost predicate OriginsFirst(c: Channel, events: seq<Event>)
    decreases |events|
  {
    events == [] ||
    (var before, e := events[..|events| - 1], events[|events| - 1];
     && OriginsFirst(c, before)
     && !OriginMissing(TablesOf(Fold(c, before)), e.change))
  }

  lemma {:induction false} OriginsStay(k: Client, events: seq<Event>)
    requires Consistent(k) && WellOrdered(k.channel, events) && OriginsFirst(k.channel, events)
    requires OriginsMatch(Table(k.channel.publications), k.mirror)
    ensures var t := ClientRun(k, events);
            Consistent(t) && OriginsMatch(Table(t.channel.publications), t.mirror)
    decreases |events|
  {
    RoomsShowTheChannel(k, events);
    if events != [] {
      var before, e := events[..|events| - 1], events[|events| - 1];
      OriginsStay(k, before);
      ClientFollowsFold(k, before);
      OriginsKeptIff(ClientRun(k, before).channel, ClientRun(k, before).mirror, e);
    }
  }

  /**
   After such a log an SFU room shows exactly those publications of the channel whose record names
   an origin.
   */
  lemma SfuShowsRelays(k: Client, events: seq<Event>)
    requires Consistent(k) && WellOrdered(k.channel, events) && OriginsFirst(k.channel, events)
    requires OriginsMatch(Table(k.channel.publications), k.mirror)
    ensures var t := ClientRun(k, events);
            var records := Table(t.channel.publications);
            forall id :: id in t.sfu.publications <==> id in records && Named(records[id]).Some?
  {
    OriginsStay(k, events);
    var t := ClientRun(k, events);
    var records := Table(t.channel.publications);
    forall id
      ensures id in t.sfu.publications <==> id in records && Named(records[id]).Some?
    {
      if id in t.mirror.publications {
        assert OriginMatches(records[id], t.mirror.publications[id]);
      }
    }
  }

  // ---- The classes ------------------------------------------------------------------------

  /** `RoomImpl` with one of its two subclasses: `sfu` tells `SfuRoomImpl` from `P2PRoomImpl`. */
  class RoomImpl {
    const sfu: bool
    var members: map<Id, MemberType>
    var publications: map<Id, RoomPublication>
    var subscriptions: map<Id, RoomSubscription>

    ghost function Model(): Room
      reads this
    {
      Room(members, publications, subscriptions)
    }

    /** `setChannelState`, over a channel in which nothing is missing. */
    constructor (sfu: bool, m: Mirror)
      requires Known(m)
      ensures this.sfu == sfu && Model() == View(sfu, m)
    {
      this.sfu := sfu;
      members, publications, subscriptions := map[], map[], map[];
      new;
      SetMembers(m.members);
      SetPublications(m);
      SetSubscriptions(m);
    }

    method SetMembers(ms: map<Id, MemberType>)
      requires members == map[]
      modifies this`members
      ensures members == ViewMembers(sfu, ms)
    {
      var todo := ms.Keys;
      while todo != {}
        invariant todo <= ms.Keys
        invariant members == map id | id in ViewMembers(sfu, ms) && id !in todo :: ms[id]
      {
        var id :| id in todo;
        todo := todo - {id};
        if !(sfu && ms[id] == Bot) {
          members := members[id := ms[id]];
        }
      }
    }

    method SetPublications(m: Mirror)
      requires publications == map[] && Known(m)
      modifies this`publications
      ensures publications == ViewPublications(sfu, m.publications)
    {
      ghost var view := ViewPublications(sfu, m.publications);
      var todo := m.publications.Keys;
      while todo != {}
        invariant todo <= m.publications.Keys
        invariant publications == map id | id in view && id !in todo :: view[id]
      {
        var id :| id in todo;
        todo := todo - {id};
        if !(sfu && m.publications[id].origin.None?) {
          AddPublication(id, m.publications[id]);
        }
      }
    }

    method SetSubscriptions(m: Mirror)
      requires subscriptions == map[] && Known(m)
      modifies this`subscriptions
      ensures subscriptions == ViewSubscriptions(sfu, m.subscriptions)
    {
      ghost var view := ViewSubscriptions(sfu, m.subscriptions);
      var todo := m.subscriptions.Keys;
      while todo != {}
        invariant todo <= m.subscriptions.Keys
        invariant subscriptions == map id | id in view && id !in todo :: view[id]
      {
        var id :| id in todo;
        todo := todo - {id};
        if !(sfu && m.subscriptions[id].subscriber.value == Bot) {
          AddSubscription(id, m.subscriptions[id]);
        }
      }
    }

    method AddPublication(id: Id, p: PublicationObject)
      modifies this`publications
      ensures Model() == AddRoomPublication(old(Model()), id, p)
    {
      if id in publications || ShownPublisher(p).None? {
        return;
      }
      publications := publications[id := RoomPublication(ShownPublisher(p).value, p.contentType)];
    }

    method AddSubscription(id: Id, s: SubscriptionObject)
      modifies this`subscriptions
      ensures Model() == AddRoomSubscription(old(Model()), id, s)
    {
      if id in subscriptions || s.subscriber.None? {
        return;
      }
      subscriptions := subscriptions[id := RoomSubscription(s.publicationId, s.contentType)];
    }

    /** The `_handleOn...` listeners of the subclass. */
    method HandleSignal(s: Signal)
      modifies this
      ensures Model() == RoomStep(sfu, old(Model()), Some(s))
    {
      match s {
        case MemberJoined(id, kind) =>
          if sfu {
            if kind == Bot { return; }
            members := members[id := kind];
          } else {
            if id in members { return; }
            members := members[id := kind];
          }
        case MemberLeft(id, kind) =>
          if sfu && id !in members { return; }
          members := members - {id};
        case Published(id, p) =>
          if sfu && p.origin.None? { return; }
          if !sfu && id in publications { return; }
          AddPublication(id, p);
        case Unpublished(id, p) =>
          if sfu && p.origin.None? { return; }
          publications := publications - {id};
        case Subscribed(id, sub) =>
          if sfu && (sub.subscriber.None? || sub.subscriber.value == Bot) { return; }
          if !sfu && id in subscriptions { return; }
          AddSubscription(id, sub);
        case Unsubscribed(id, sub) =>
          if sfu && (sub.subscriber.None? || sub.subscriber.value == Bot) { return; }
          subscriptions := subscriptions - {id};
        case Other =>
      }
    }
  }
}
