/** `SkyWayChannelImpl`: maps of live objects that mirror the lists of `ChannelImpl`. */
module Mirror {
  import opened Util
  import opened Entries
  import opened Replica

  /** A publication object: the publisher and origin it was created with, if they were found. */
  datatype PublicationObject = PublicationObject(
    publisher: Option<Id>, origin: Option<Origin>, contentType: ContentType, encodings: seq<string>)

  datatype Origin = Origin(id: Id, publisher: Option<Id>)

  /** A subscription object: the subscriber it was created with, if it was found. */
  datatype SubscriptionObject = SubscriptionObject(
    publicationId: Id, subscriber: Option<MemberType>, contentType: ContentType)

  datatype Mirror = Mirror(
    members: map<Id, MemberType>,
    publications: map<Id, PublicationObject>,
    subscriptions: map<Id, SubscriptionObject>)

  /** What `SkyWayChannelImpl` emits to a room. */
  datatype Signal =
    | MemberJoined(id: Id, kind: MemberType)
    | MemberLeft(id: Id, kind: MemberType)
    | Published(id: Id, publication: PublicationObject)
    | Unpublished(id: Id, publication: PublicationObject)
    | Subscribed(id: Id, subscription: SubscriptionObject)
    | Unsubscribed(id: Id, subscription: SubscriptionObject)
    | Other

  /** `createPublication`, for an id that is not present yet. */
  function CreatePublication(m: Mirror, p: Publication): PublicationObject
  {
    var named := p.body.origin.Some? && p.body.origin.value != "";
    var origin := if named && p.body.origin.value in m.publications
                  then Some(p.body.origin.value) else None;
    PublicationObject(
      if p.body.publisherId in m.members then Some(p.body.publisherId) else None,
      if origin.Some? then Some(Origin(origin.value, m.publications[origin.value].publisher)) else None,
      p.body.contentType,
      if origin.Some? && p.body.encodings == []
      then m.publications[origin.value].encodings else p.body.encodings)
  }

  /** `createSubscription`, for an id that is not present yet and a publication that is. */
  function CreateSubscription(m: Mirror, s: Subscription): SubscriptionObject
    requires s.body.publicationId in m.publications
  {
    SubscriptionObject(
      s.body.publicationId,
      if s.body.subscriberId in m.members then Some(m.members[s.body.subscriberId]) else None,
      m.publications[s.body.publicationId].contentType)
  }

  function AddMember(m: Mirror, member: Member): Mirror
  {
    if member.id in m.members then m else m.(members := m.members[member.id := member.body.kind])
  }

  function AddPublication(m: Mirror, p: Publication): Mirror
  {
    if p.id in m.publications then m
    else m.(publications := m.publications[p.id := CreatePublication(m, p)])
  }

  /** Handles one notice of `ChannelImpl`; a handler that throws emits nothing. */
  function Handle(m: Mirror, n: Notice): (Mirror, Option<Signal>)
  {
    match n
    case OnMemberJoined(member) =>
      var m' := AddMember(m, member);
      (m', Some(MemberJoined(member.id, m'.members[member.id])))
    case OnMemberLeft(member) =>
      if member.id in m.members
      then (m.(members := m.members - {member.id}), Some(MemberLeft(member.id, m.members[member.id])))
      else (m, None)
    case OnStreamPublished(p) =>
      var m' := AddPublication(m, p);
      (m', Some(Published(p.id, m'.publications[p.id])))
    case OnStreamUnpublished(p) =>
      if p.id in m.publications
      then (m.(publications := m.publications - {p.id}), Some(Unpublished(p.id, m.publications[p.id])))
      else (m, None)
    case OnSubscribed(s) =>
      if s.id !in m.subscriptions && s.body.publicationId !in m.publications then (m, None) else
      var entry := if s.id in m.subscriptions then m.subscriptions[s.id] else CreateSubscription(m, s);
      (m.(subscriptions := m.subscriptions[s.id := entry]),
       if entry.publicationId in m.publications then Some(Subscribed(s.id, entry)) else None)
    case OnUnsubscribed(s) =>
      if s.id !in m.subscriptions then (m, None) else
      var entry := m.subscriptions[s.id];
      (m.(subscriptions := m.subscriptions - {s.id}),
       if entry.publicationId in m.publications then Some(Unsubscribed(s.id, entry)) else None)
    case _ => (m, Some(Other))
  }

  function HandleAny(m: Mirror, n: Option<Notice>): (Mirror, Option<Signal>)
  {
    if n.Some? then Handle(m, n.value) else (m, None)
  }

  /** The mirror after the channel has processed one event. */
  function Follow(c: Channel, m: Mirror, e: Event): (Mirror, Option<Signal>)
  {
    HandleAny(m, Apply(c, e).1)
  }

  // ---- The initial load -------------------------------------------------------------------

  function LoadMembers(m: Mirror, xs: seq<Member>): Mirror
    decreases |xs|
  {
    if xs == [] then m else AddMember(LoadMembers(m, xs[..|xs| - 1]), xs[|xs| - 1])
  }

  function LoadPublications(m: Mirror, xs: seq<Publication>): Mirror
    decreases |xs|
  {
    if xs == [] then m else AddPublication(LoadPublications(m, xs[..|xs| - 1]), xs[|xs| - 1])
  }

  /** `None` stands for the exception thrown when a publication is unknown. */
  function LoadSubscriptions(m: Mirror, xs: seq<Subscription>): Option<Mirror>
    decreases |xs|
  {
    if xs == [] then Some(m) else
    match LoadSubscriptions(m, xs[..|xs| - 1])
    case None => None
    case Some(m') =>
      var s := xs[|xs| - 1];
      if s.id in m'.subscriptions then Some(m')
      else if s.body.publicationId !in m'.publications then None
      else Some(m'.(subscriptions := m'.subscriptions[s.id := CreateSubscription(m', s)]))
  }

  function Load(c: Channel): Option<Mirror>
  {
    LoadSubscriptions(LoadPublications(LoadMembers(Mirror(map[], map[], map[]), c.members), c.publications),
                      c.subscriptions)
  }

  // ---- Synchrony --------------------------------------------------------------------------

  /** The maps hold the ids of the lists, with the attributes that never change. */
  ghost predicate Synced(c: Channel, m: Mirror)
  {
    SyncedTables(TablesOf(c), m)
  }

  ghost predicate SyncedTables(t: Tables, m: Mirror)
  {
    && SyncedMembers(t.members, m)
    && SyncedPublications(t.publications, m)
    && SyncedSubscriptions(t.subscriptions, m)
  }

  ghost predicate SyncedMembers(t: map<Id, MemberBody>, m: Mirror)
  {
    && m.members.Keys == t.Keys
    && forall id :: id in m.members ==> m.members[id] == t[id].kind
  }

  ghost predicate SyncedPublications(t: map<Id, PublicationBody>, m: Mirror)
  {
    && m.publications.Keys == t.Keys
    && forall id :: id in m.publications ==> m.publications[id].contentType == t[id].contentType
  }

  ghost predicate SyncedSubscriptions(t: map<Id, SubscriptionBody>, m: Mirror)
  {
    && m.subscriptions.Keys == t.Keys
    && forall id :: id in m.subscriptions ==> m.subscriptions[id].publicationId == t[id].publicationId
  }

  lemma HandleMember(t: Tables, m: Mirror, change: Change, t': Tables, n: Option<Notice>)
    requires SyncedTables(t, m) && Effect(t, change, t', n)
    requires change.MemberAdded? || change.MemberRemoved? || change.MemberMetadataUpdated?
    ensures SyncedTables(t', HandleAny(m, n).0)
  {
  }

  lemma HandlePublication(t: Tables, m: Mirror, change: Change, t': Tables, n: Option<Notice>)
    requires SyncedTables(t, m) && Effect(t, change, t', n)
    requires change.StreamPublished? || change.StreamUnpublished?
    ensures SyncedTables(t', HandleAny(m, n).0)
  {
  }

  lemma HandleSubscription(t: Tables, m: Mirror, change: Change, t': Tables, n: Option<Notice>)
    requires SyncedTables(t, m) && Effect(t, change, t', n)
    requires change.StreamSubscribed? || change.StreamUnsubscribed?
    ensures SyncedTables(t', HandleAny(m, n).0)
  {
    if change.StreamSubscribed? {
      HandleSubscribed(t, m, change.subscription, t', n);
    } else {
      HandleUnsubscribed(t, m, change.id, t', n);
    }
  }

  lemma HandleSubscribed(t: Tables, m: Mirror, s: SubscriptionSummary, t': Tables, n: Option<Notice>)
    requires SyncedTables(t, m) && Effect(t, StreamSubscribed(s), t', n)
    ensures SyncedTables(t', HandleAny(m, n).0)
  {
  }

  lemma HandleUnsubscribed(t: Tables, m: Mirror, id: Id, t': Tables, n: Option<Notice>)
    requires SyncedTables(t, m) && Effect(t, StreamUnsubscribed(id), t', n)
    ensures SyncedTables(t', HandleAny(m, n).0)
  {
  }

  lemma HandleOther(t: Tables, m: Mirror, change: Change, t': Tables, n: Option<Notice>)
    requires SyncedTables(t, m) && Effect(t, change, t', n)
    requires !(change.MemberAdded? || change.MemberRemoved? || change.MemberMetadataUpdated?)
    requires !(change.StreamPublished? || change.StreamUnpublished?)
    requires !(change.StreamSubscribed? || change.StreamUnsubscribed?)
    ensures SyncedTables(t', HandleAny(m, n).0) && HandleAny(m, n).0 == m
    ensures HandleAny(m, n).1 in {None, Some(Other)}
  {
  }

  /** Whatever the log holds, the mirror has the ids of the lists after every event. */
  lemma FollowSynced(c: Channel, m: Mirror, e: Event)
    requires Synced(c, m)
    ensures Synced(Apply(c, e).0, Follow(c, m, e).0)
  {
    ApplyTables(c, e);
    var t, t', n := TablesOf(c), TablesOf(Apply(c, e).0), Apply(c, e).1;
    match e.change {
      case MemberAdded(_) => HandleMember(t, m, e.change, t', n);
      case MemberRemoved(_) => HandleMember(t, m, e.change, t', n);
      case MemberMetadataUpdated(_, _) => HandleMember(t, m, e.change, t', n);
      case StreamPublished(_) => HandlePublication(t, m, e.change, t', n);
      case StreamUnpublished(_) => HandlePublication(t, m, e.change, t', n);
      case StreamSubscribed(_) => HandleSubscription(t, m, e.change, t', n);
      case StreamUnsubscribed(_) => HandleSubscription(t, m, e.change, t', n);
      case _ => HandleOther(t, m, e.change, t', n);
    }
  }

  lemma {:induction false} LoadMembersSynced(xs: seq<Member>)
    ensures var m := LoadMembers(Mirror(map[], map[], map[]), xs);
            SyncedMembers(Table(xs), m) && m.publications == map[] && m.subscriptions == map[]
    decreases |xs|
  {
    if xs != [] {
      var before, x := xs[..|xs| - 1], xs[|xs| - 1];
      LoadMembersSynced(before);
      AppendTable(before, x);
      assert xs == before + [x];
    }
  }

  lemma {:induction false} LoadPublicationsSynced(m: Mirror, xs: seq<Publication>)
    requires m.publications == map[]
    ensures var m' := LoadPublications(m, xs);
            SyncedPublications(Table(xs), m') && m'.members == m.members && m'.subscriptions == m.subscriptions
    decreases |xs|
  {
    if xs != [] {
      var before, x := xs[..|xs| - 1], xs[|xs| - 1];
      LoadPublicationsSynced(m, before);
      AppendTable(before, x);
      assert xs == before + [x];
    }
  }

  lemma {:induction false} LoadSubscriptionsSynced(m: Mirror, xs: seq<Subscription>)
    requires m.subscriptions == map[]
    requires forall id :: id in Table(xs) ==> Table(xs)[id].publicationId in m.publications
    requires Unique(xs)
    ensures var m' := LoadSubscriptions(m, xs);
            m'.Some? && SyncedSubscriptions(Table(xs), m'.value)
            && m'.value.members == m.members && m'.value.publications == m.publications
    decreases |xs|
  {
    if xs != [] {
      var before, x := xs[..|xs| - 1], xs[|xs| - 1];
      assert xs == before + [x];
      AppendTable(before, x);
      forall i | 0 <= i < |before|
        ensures before[i].id != x.id
      {
        assert xs[i] == before[i];
      }
      InTable(before, x.id);
      assert Table(xs)[x.id] == x.body;
      assert Unique(before) by {
        assert forall i :: 0 <= i < |before| ==> before[i] == xs[i];
      }
      forall id | id in Table(before)
        ensures Table(before)[id].publicationId in m.publications
      {
        assert id in Table(xs);
      }
      LoadSubscriptionsSynced(m, before);
    }
  }

  /** A channel whose subscriptions refer to its publications loads without an exception, in sync. */
  lemma LoadSynced(c: Channel)
    requires UniqueIds(c) && References(c)
    ensures Load(c).Some? && Synced(c, Load(c).value)
  {
    LoadMembersSynced(c.members);
    var m := LoadMembers(Mirror(map[], map[], map[]), c.members);
    LoadPublicationsSynced(m, c.publications);
    var m' := LoadPublications(m, c.publications);
    forall id | id in Table(c.subscriptions)
      ensures Table(c.subscriptions)[id].publicationId in m'.publications
    {
      assert RefersTo(Table(c.subscriptions)[id], Table(c.publications));
    }
    LoadSubscriptionsSynced(m', c.subscriptions);
  }

  // ---- Relayed publications ---------------------------------------------------------------

  /** The origin that a record names; an empty id names none. */
  function Named(p: PublicationBody): Option<Id>
  {
    if p.origin == Some("") then None else p.origin
  }

  /** Every publication of the mirror has the origin that its record names. */
  ghost predicate OriginsMatch(t: map<Id, PublicationBody>, m: Mirror)
    requires SyncedPublications(t, m)
  {
    forall id :: id in m.publications ==> OriginMatches(t[id], m.publications[id])
  }

  predicate OriginMatches(record: PublicationBody, p: PublicationObject)
  {
    match p.origin
    case None => Named(record).None?
    case Some(origin) => Named(record) == Some(origin.id)
  }

  /** The event publishes something new whose origin is not present. */
  ghost predicate OriginMissing(t: Tables, change: Change)
  {
    && change.StreamPublished?
    && change.publication.id !in t.publications
    && var origin := Named(FromSummary(change.publication).body);
       origin.Some? && origin.value !in t.publications
  }

  lemma CreatedMatchesIff(t: map<Id, PublicationBody>, m: Mirror, p: Publication)
    requires SyncedPublications(t, m)
    ensures OriginMatches(p.body, CreatePublication(m, p)) <==> Named(p.body).None? || Named(p.body).value in t
  {
  }

  lemma PublishedOriginsIff(t: Tables, m: Mirror, p: PublicationSummary, t': Tables, n: Option<Notice>)
    requires SyncedTables(t, m) && Effect(t, StreamPublished(p), t', n)
    requires SyncedPublications(t'.publications, HandleAny(m, n).0)
    requires OriginsMatch(t.publications, m)
    ensures OriginsMatch(t'.publications, HandleAny(m, n).0) <==> !OriginMissing(t, StreamPublished(p))
  {
    if p.id !in t.publications {
      var created := Entry(p.id, FromSummary(p).body);
      CreatedMatchesIff(t.publications, m, created);
      assert t'.publications[p.id] == created.body;
      var m' := HandleAny(m, n).0;
      assert m'.publications == m.publications[p.id := CreatePublication(m, created)];
    }
  }

  lemma OtherOrigins(t: Tables, m: Mirror, change: Change, t': Tables, n: Option<Notice>)
    requires SyncedTables(t, m) && Effect(t, change, t', n) && !change.StreamPublished?
    requires SyncedPublications(t'.publications, HandleAny(m, n).0)
    requires OriginsMatch(t.publications, m)
    ensures OriginsMatch(t'.publications, HandleAny(m, n).0)
  {
    var m' := HandleAny(m, n).0;
    RecordsKeepOrigins(t, change, t', n);
    ObjectsStay(t, m, change, t', n);
    forall id | id in m'.publications
      ensures OriginMatches(t'.publications[id], m'.publications[id])
    {
      assert OriginMatches(t.publications[id], m.publications[id]);
    }
  }

  lemma RecordsKeepOrigins(t: Tables, change: Change, t': Tables, n: Option<Notice>)
    requires Effect(t, change, t', n) && !change.StreamPublished?
    ensures forall id :: id in t'.publications ==>
              id in t.publications && t'.publications[id].origin == t.publications[id].origin
  {
  }

  lemma ObjectsStay(t: Tables, m: Mirror, change: Change, t': Tables, n: Option<Notice>)
    requires Effect(t, change, t', n) && !change.StreamPublished?
    ensures forall id :: id in HandleAny(m, n).0.publications ==>
              id in m.publications && HandleAny(m, n).0.publications[id] == m.publications[id]
  {
    assert n.Some? ==> !n.value.OnStreamPublished?;
    NoticeKeepsObjects(m, n);
  }

  lemma NoticeKeepsObjects(m: Mirror, n: Option<Notice>)
    requires n.Some? ==> !n.value.OnStreamPublished?
    ensures forall id :: id in HandleAny(m, n).0.publications ==>
              id in m.publications && HandleAny(m, n).0.publications[id] == m.publications[id]
  {
  }

  /**
   The publications keep the origins that their records name, exactly if the event does not publish
   a relay of something that is not present.
   */
  lemma OriginsKeptIff(c: Channel, m: Mirror, e: Event)
    requires Synced(c, m) && OriginsMatch(Table(c.publications), m)
    ensures var (c', m') := (Apply(c, e).0, Follow(c, m, e).0);
            && Synced(c', m')
            && (OriginsMatch(Table(c'.publications), m') <==> !OriginMissing(TablesOf(c), e.change))
  {
    ApplyTables(c, e);
    FollowSynced(c, m, e);
    var (t, t', n) := (TablesOf(c), TablesOf(Apply(c, e).0), Apply(c, e).1);
    if e.change.StreamPublished? {
      PublishedOriginsIff(t, m, e.change.publication, t', n);
    } else {
      OtherOrigins(t, m, e.change, t', n);
    }
  }

  /**
   The origin named by a publication is resolved exactly when that publication is present; a
   relayed publication without encodings of its own then takes those of its origin.
   */
  lemma OriginResolvedIff(c: Channel, m: Mirror, e: Event, origin: Id)
    requires Synced(c, m) && e.change.StreamPublished?
    requires e.change.publication.origin == Some(origin) && origin != ""
    requires e.change.publication.id !in Table(c.publications)
    ensures var p := e.change.publication;
            var m' := Follow(c, m, e).0;
            && p.id in m'.publications
            && (m'.publications[p.id].origin.Some? <==> origin in Table(c.publications))
            && (origin in Table(c.publications) ==>
                  && m'.publications[p.id].origin.value == Origin(origin, m.publications[origin].publisher)
                  && (p.encodings in {None, Some([])} ==>
                        m'.publications[p.id].encodings == m.publications[origin].encodings))
  {
    ApplyTables(c, e);
  }

  // ---- The class --------------------------------------------------------------------------

  class SkyWayChannelImpl {
    var members: map<Id, MemberType>
    var publications: map<Id, PublicationObject>
    var subscriptions: map<Id, SubscriptionObject>

    ghost function Model(): Mirror
      reads this
    {
      Mirror(members, publications, subscriptions)
    }

    /** `_setupPropertiesFromChannel`, for a channel that loads without an exception. */
    constructor (c: Channel)
      requires UniqueIds(c) && References(c)
      ensures Load(c) == Some(Model()) && Synced(c, Model())
    {
      members, publications, subscriptions := map[], map[], map[];
      new;
      LoadSynced(c);
      SetupMembers(c.members);
      SetupPublications(c.publications);
      SetupSubscriptions(c.subscriptions);
    }

    method SetupMembers(xs: seq<Member>)
      modifies this`members
      ensures Model() == LoadMembers(old(Model()), xs)
    {
      for i := 0 to |xs|
        invariant Model() == LoadMembers(old(Model()), xs[..i])
      {
        assert xs[..i + 1][..i] == xs[..i];
        if xs[i].id !in members {
          members := members[xs[i].id := xs[i].body.kind];
        }
      }
      assert xs[..|xs|] == xs;
    }

    method SetupPublications(xs: seq<Publication>)
      modifies this`publications
      ensures Model() == LoadPublications(old(Model()), xs)
    {
      for i := 0 to |xs|
        invariant Model() == LoadPublications(old(Model()), xs[..i])
      {
        assert xs[..i + 1][..i] == xs[..i];
        AddPublicationObject(xs[i]);
      }
      assert xs[..|xs|] == xs;
    }

    method SetupSubscriptions(xs: seq<Subscription>)
      requires LoadSubscriptions(Model(), xs).Some?
      modifies this`subscriptions
      ensures LoadSubscriptions(old(Model()), xs) == Some(Model())
    {
      for i := 0 to |xs|
        invariant LoadSubscriptions(old(Model()), xs[..i]) == Some(Model())
      {
        LoadsPrefix(old(Model()), xs, i + 1);
        assert xs[..i + 1][..i] == xs[..i];
        if xs[i].id !in subscriptions {
          AddSubscriptionObject(xs[i]);
        }
      }
      assert xs[..|xs|] == xs;
    }

    method AddPublicationObject(p: Publication)
      modifies this`publications
      ensures Model() == AddPublication(old(Model()), p)
    {
      if p.id in publications {
        return;
      }
      var origin: Option<Origin>, encodings := None, p.body.encodings;
      if p.body.origin.Some? && p.body.origin.value != "" {
        var id := p.body.origin.value;
        if id in publications {
          origin := Some(Origin(id, publications[id].publisher));
          if encodings == [] {
            encodings := publications[id].encodings;
          }
        }
      }
      var publisher := if p.body.publisherId in members then Some(p.body.publisherId) else None;
      publications := publications[p.id := PublicationObject(publisher, origin, p.body.contentType, encodings)];
    }

    method AddSubscriptionObject(s: Subscription)
      requires s.id !in subscriptions && s.body.publicationId in publications
      modifies this`subscriptions
      ensures subscriptions == old(subscriptions)[s.id := CreateSubscription(old(Model()), s)]
    {
      var publication := publications[s.body.publicationId];
      var subscriber := if s.body.subscriberId in members then Some(members[s.body.subscriberId]) else None;
      var subscription := SubscriptionObject(s.body.publicationId, subscriber, publication.contentType);
      subscriptions := subscriptions[s.id := subscription];
    }

    /** The `_handleOn...` listeners. */
    method HandleNotice(n: Notice) returns (signal: Option<Signal>)
      modifies this
      ensures Handle(old(Model()), n) == (Model(), signal)
    {
      match n {
        case OnMemberJoined(member) =>
          if member.id !in members {
            members := members[member.id := member.body.kind];
          }
          signal := Some(MemberJoined(member.id, members[member.id]));
        case OnMemberLeft(member) =>
          if member.id !in members { return None; }
          signal := Some(MemberLeft(member.id, members[member.id]));
          members := members - {member.id};
        case OnStreamPublished(p) =>
          AddPublicationObject(p);
          signal := Some(Published(p.id, publications[p.id]));
        case OnStreamUnpublished(p) =>
          if p.id !in publications { return None; }
          signal := Some(Unpublished(p.id, publications[p.id]));
          publications := publications - {p.id};
        case OnSubscribed(s) =>
          if s.id !in subscriptions {
            if s.body.publicationId !in publications { return None; }
            AddSubscriptionObject(s);
          }
          var subscription := subscriptions[s.id];
          assert subscriptions == subscriptions[s.id := subscription];
          if subscription.publicationId !in publications { return None; }
          signal := Some(Subscribed(s.id, subscription));
        case OnUnsubscribed(s) =>
          if s.id !in subscriptions { return None; }
          var subscription := subscriptions[s.id];
          subscriptions := subscriptions - {s.id};
          if subscription.publicationId !in publications { return None; }
          signal := Some(Unsubscribed(s.id, subscription));
        case _ =>
          signal := Some(Other);
      }
    }
  }

  /** An exception while loading a list would have been thrown by a prefix of it. */
  lemma {:induction false} LoadsPrefix(m: Mirror, xs: seq<Subscription>, n: nat)
    requires n <= |xs| && LoadSubscriptions(m, xs).Some?
    ensures LoadSubscriptions(m, xs[..n]).Some?
    decreases |xs|
  {
    if n == |xs| {
      assert xs[..n] == xs;
    } else {
      LoadsPrefix(m, xs[..|xs| - 1], n);
      assert xs[..|xs| - 1][..n] == xs[..n];
    }
  }
}
