/**
 What the mirror and the rooms show, told from the channel's records alone: whose publication or
 subscription it is, of which kind of member, and of which content.
 */
module Records {
  import opened Util
  import opened Entries
  import opened Replica
  import opened Mirror
  import opened Rooms

  // ---- The mirror's objects ---------------------------------------------------------------

  /** The object names the record's publisher and, for a relay, the origin and the publisher of that. */
  predicate PublicationDescribed(ps: map<Id, PublicationBody>, os: map<Id, PublicationObject>, p: PublicationBody,
                                 o: PublicationObject)
  {
    && o.publisher == Some(p.publisherId) && o.contentType == p.contentType
    && match Named(p)
       case None => o.origin == None && o.encodings == p.encodings
       case Some(origin) =>
         && origin in ps && origin in os
         && o.origin == Some(Origin(origin, Some(ps[origin].publisherId)))
         && o.encodings == if p.encodings != [] then p.encodings else os[origin].encodings
  }

  /** The object carries the kind of the member that the record names. */
  predicate SubscriptionDescribed(ms: map<Id, MemberBody>, s: SubscriptionBody, o: SubscriptionObject)
  {
    && s.subscriberId in ms
    && o.publicationId == s.publicationId && o.contentType == s.contentType
    && o.subscriber == Some(ms[s.subscriberId].kind)
  }

  ghost predicate PublicationsDescribed(ps: map<Id, PublicationBody>, os: map<Id, PublicationObject>)
  {
    os.Keys == ps.Keys && forall id :: id in os ==> PublicationDescribed(ps, os, ps[id], os[id])
  }

  ghost predicate SubscriptionsDescribed(ms: map<Id, MemberBody>, ss: map<Id, SubscriptionBody>,
                                         os: map<Id, SubscriptionObject>)
  {
    os.Keys == ss.Keys && forall id :: id in os ==> SubscriptionDescribed(ms, ss[id], os[id])
  }

  ghost predicate Described(t: Tables, m: Mirror)
  {
    && SyncedMembers(t.members, m)
    && PublicationsDescribed(t.publications, m.publications)
    && SubscriptionsDescribed(t.members, t.subscriptions, m.subscriptions)
  }

  // ---- The order of the log ---------------------------------------------------------------

  /**
   What is published and subscribed names what is present, and nothing is taken away that is still
   named: a member's subscriptions end before it leaves, and relays before their origin.
   */
  ghost predicate InOrder(t: Tables, change: Change)
  {
    match change
    case MemberRemoved(id) => forall s :: s in t.subscriptions ==> t.subscriptions[s].subscriberId != id
    case StreamPublished(p) =>
      p.id in t.publications
      || (p.publisherId in t.members && (p.origin in {None, Some("")} || p.origin.value in t.publications))
    case StreamUnpublished(id) => forall p :: p in t.publications ==> Named(t.publications[p]) != Some(id)
    case StreamSubscribed(s) =>
      s.id in t.subscriptions || s.publicationId !in t.publications || s.subscriberId in t.members
    case _ => true
  }

  ghost predicate LogInOrder(c: Channel, events: seq<Event>)
    decreases |events|
  {
    events == [] ||
    (var before, e := events[..|events| - 1], events[|events| - 1];
     LogInOrder(c, before) && InOrder(TablesOf(Fold(c, before)), e.change))
  }

  // ---- One event --------------------------------------------------------------------------

  lemma MembersKept(t: Tables, m: Mirror, change: Change, t': Tables, n: Option<Notice>)
    requires Described(t, m) && Effect(t, change, t', n) && InOrder(t, change)
    requires change.MemberAdded? || change.MemberRemoved? || change.MemberMetadataUpdated?
    ensures Described(t', HandleAny(m, n).0)
  {
    var m' := HandleAny(m, n).0;
    MembersFollow(t, m, change, t', n);
    SubscribersStay(t, m.subscriptions, change, t', n);
    SubscriptionsStay(t.members, t'.members, t.subscriptions, m.subscriptions);
  }

  lemma MembersFollow(t: Tables, m: Mirror, change: Change, t': Tables, n: Option<Notice>)
    requires SyncedMembers(t.members, m) && Effect(t, change, t', n)
    requires change.MemberAdded? || change.MemberRemoved? || change.MemberMetadataUpdated?
    ensures var m' := HandleAny(m, n).0;
            && SyncedMembers(t'.members, m')
            && m'.publications == m.publications && m'.subscriptions == m.subscriptions
    ensures t'.publications == t.publications && t'.subscriptions == t.subscriptions
  {
  }

  lemma SubscribersStay(t: Tables, os: map<Id, SubscriptionObject>, change: Change, t': Tables, n: Option<Notice>)
    requires SubscriptionsDescribed(t.members, t.subscriptions, os) && Effect(t, change, t', n) && InOrder(t, change)
    requires change.MemberAdded? || change.MemberRemoved? || change.MemberMetadataUpdated?
    ensures forall id :: id in t.subscriptions ==>
              var member := t.subscriptions[id].subscriberId;
              member in t.members && member in t'.members && t'.members[member].kind == t.members[member].kind
  {
    forall id | id in t.subscriptions
      ensures t.subscriptions[id].subscriberId in t.members
    {
      assert SubscriptionDescribed(t.members, t.subscriptions[id], os[id]);
    }
  }

  lemma SubscriptionsStay(ms: map<Id, MemberBody>, ms': map<Id, MemberBody>, ss: map<Id, SubscriptionBody>,
                          os: map<Id, SubscriptionObject>)
    requires SubscriptionsDescribed(ms, ss, os)
    requires forall id :: id in ss ==>
               var member := ss[id].subscriberId;
               member in ms && member in ms' && ms'[member].kind == ms[member].kind
    ensures SubscriptionsDescribed(ms', ss, os)
  {
    forall id | id in os
      ensures SubscriptionDescribed(ms', ss[id], os[id])
    {
      assert SubscriptionDescribed(ms, ss[id], os[id]);
    }
  }

  lemma NewPublicationDescribed(t: Tables, m: Mirror, p: PublicationSummary)
    requires Described(t, m) && p.id !in t.publications && InOrder(t, StreamPublished(p))
    ensures var (created, body) := (CreatePublication(m, FromSummary(p)), FromSummary(p).body);
            PublicationDescribed(t.publications, m.publications, body, created)
  {
    var named := Named(FromSummary(p).body);
    if named.Some? {
      assert PublicationDescribed(t.publications, m.publications, t.publications[named.value],
                                  m.publications[named.value]);
    }
  }

  lemma PublishedKept(t: Tables, m: Mirror, p: PublicationSummary, t': Tables, n: Option<Notice>)
    requires Described(t, m) && Effect(t, StreamPublished(p), t', n) && InOrder(t, StreamPublished(p))
    ensures Described(t', HandleAny(m, n).0)
  {
    var m' := HandleAny(m, n).0;
    if p.id !in t.publications {
      var created := CreatePublication(m, FromSummary(p));
      NewPublicationDescribed(t, m, p);
      assert n == Some(OnStreamPublished(FromSummary(p)));
      assert m' == m.(publications := m.publications[p.id := created]);
      AddedDescribed(t.publications, m.publications, p.id, FromSummary(p).body, created);
    } else {
      assert m' == m;
    }
  }

  lemma AddedDescribed(ps: map<Id, PublicationBody>, os: map<Id, PublicationObject>, id: Id, p: PublicationBody,
                       o: PublicationObject)
    requires PublicationsDescribed(ps, os) && id !in ps && PublicationDescribed(ps, os, p, o)
    ensures PublicationsDescribed(ps[id := p], os[id := o])
  {
    var (ps', os') := (ps[id := p], os[id := o]);
    forall i | i in os'
      ensures PublicationDescribed(ps', os', ps'[i], os'[i])
    {
      assert i != id ==> PublicationDescribed(ps, os, ps[i], os[i]);
    }
  }

  lemma RemovedDescribed(ps: map<Id, PublicationBody>, os: map<Id, PublicationObject>, id: Id)
    requires PublicationsDescribed(ps, os) && forall p :: p in ps ==> Named(ps[p]) != Some(id)
    ensures PublicationsDescribed(ps - {id}, os - {id})
  {
    forall i | i in os - {id}
      ensures PublicationDescribed(ps - {id}, os - {id}, (ps - {id})[i], (os - {id})[i])
    {
      assert PublicationDescribed(ps, os, ps[i], os[i]);
    }
  }

  lemma EditedDescribed(ps: map<Id, PublicationBody>, os: map<Id, PublicationObject>, id: Id, edit: Edit)
    requires PublicationsDescribed(ps, os) && id in ps
    ensures PublicationsDescribed(ps[id := Edited(ps[id], edit)], os)
  {
    var ps' := ps[id := Edited(ps[id], edit)];
    forall i | i in os
      ensures PublicationDescribed(ps', os, ps'[i], os[i])
    {
      assert PublicationDescribed(ps, os, ps[i], os[i]);
    }
  }

  lemma UnpublishedKept(t: Tables, m: Mirror, id: Id, t': Tables, n: Option<Notice>)
    requires Described(t, m) && Effect(t, StreamUnpublished(id), t', n) && InOrder(t, StreamUnpublished(id))
    ensures Described(t', HandleAny(m, n).0)
  {
    RemovedDescribed(t.publications, m.publications, id);
    UnpublishedFollows(t, m, id, t', n);
  }

  lemma UnpublishedFollows(t: Tables, m: Mirror, id: Id, t': Tables, n: Option<Notice>)
    requires m.publications.Keys == t.publications.Keys && Effect(t, StreamUnpublished(id), t', n)
    ensures HandleAny(m, n).0 == m.(publications := m.publications - {id})
    ensures t' == t.(publications := t.publications - {id})
  {
  }

  lemma EditKept(t: Tables, m: Mirror, id: Id, edit: Edit, t': Tables, n: Option<Notice>)
    requires Described(t, m) && EditEffect(t, id, edit, t', n)
    ensures Described(t', HandleAny(m, n).0)
  {
    EditFollows(t, m, id, edit, t', n);
    if id in t.publications {
      EditedDescribed(t.publications, m.publications, id, edit);
    }
  }

  lemma EditFollows(t: Tables, m: Mirror, id: Id, edit: Edit, t': Tables, n: Option<Notice>)
    requires EditEffect(t, id, edit, t', n)
    ensures HandleAny(m, n).0 == m
    ensures t' == if id in t.publications
                  then t.(publications := t.publications[id := Edited(t.publications[id], edit)]) else t
  {
  }

  lemma SubscribedKept(t: Tables, m: Mirror, s: SubscriptionSummary, t': Tables, n: Option<Notice>)
    requires Described(t, m) && Effect(t, StreamSubscribed(s), t', n) && InOrder(t, StreamSubscribed(s))
    ensures Described(t', HandleAny(m, n).0)
  {
    if s.id !in t.subscriptions && s.publicationId in t.publications {
      var p := t.publications[s.publicationId];
      assert PublicationDescribed(t.publications, m.publications, p, m.publications[s.publicationId]);
      var created := CreateSubscription(m, FromSubscribed(s, p));
      assert SubscriptionDescribed(t.members, FromSubscribed(s, p).body, created);
      assert HandleAny(m, n).0 == m.(subscriptions := m.subscriptions[s.id := created]);
    } else {
      assert HandleAny(m, n).0.subscriptions == m.subscriptions;
    }
  }

  lemma UnsubscribedKept(t: Tables, m: Mirror, id: Id, t': Tables, n: Option<Notice>)
    requires Described(t, m) && Effect(t, StreamUnsubscribed(id), t', n)
    ensures Described(t', HandleAny(m, n).0)
  {
    assert HandleAny(m, n).0 == m.(subscriptions := m.subscriptions - {id});
  }

  /** An event in order keeps every object what its record says. */
  lemma DescribedKept(c: Channel, m: Mirror, e: Event)
    requires Described(TablesOf(c), m) && InOrder(TablesOf(c), e.change)
    ensures Described(TablesOf(Apply(c, e).0), Follow(c, m, e).0)
  {
    ApplyTables(c, e);
    var (t, t', n) := (TablesOf(c), TablesOf(Apply(c, e).0), Apply(c, e).1);
    match e.change
    case StreamPublished(p) => PublishedKept(t, m, p, t', n);
    case StreamUnpublished(id) => UnpublishedKept(t, m, id, t', n);
    case PublicationMetadataUpdated(id, md) => EditKept(t, m, id, SetMetadata(md), t', n);
    case PublicationDisabled(id, en) => EditKept(t, m, id, SetEnabled(en), t', n);
    case PublicationEnabled(id, en) => EditKept(t, m, id, SetEnabled(en), t', n);
    case StreamSubscribed(s) => SubscribedKept(t, m, s, t', n);
    case StreamUnsubscribed(id) => UnsubscribedKept(t, m, id, t', n);
    case MemberAdded(_) => MembersKept(t, m, e.change, t', n);
    case MemberRemoved(_) => MembersKept(t, m, e.change, t', n);
    case MemberMetadataUpdated(_, _) => MembersKept(t, m, e.change, t', n);
    case _ => assert t' == t && HandleAny(m, n).0 == m;
  }

  // ---- The initial load -------------------------------------------------------------------

  lemma {:induction false} LoadPublicationsDescribed(m: Mirror, ms: map<Id, MemberBody>, xs: seq<Publication>)
    requires m.publications == map[] && m.members.Keys == ms.Keys && Unique(xs)
    requires forall i :: 0 <= i < |xs| ==> xs[i].body.publisherId in ms
    requires forall i :: 0 <= i < |xs| && Named(xs[i].body).Some? ==> Named(xs[i].body).value in Table(xs[..i])
    ensures var m' := LoadPublications(m, xs);
            PublicationsDescribed(Table(xs), m'.publications)
            && m'.members == m.members && m'.subscriptions == m.subscriptions
    decreases |xs|
  {
    if xs != [] {
      var before, x := xs[..|xs| - 1], xs[|xs| - 1];
      assert xs == before + [x];
      assert forall i :: 0 <= i < |before| ==> before[i] == xs[i] && before[..i] == xs[..i];
      LoadPublicationsDescribed(m, ms, before);
      LastIsNew(before, x);
      LoadOneDescribed(LoadPublications(m, before), Table(before), x);
    }
  }

  lemma LastIsNew<T>(before: seq<Entry<T>>, x: Entry<T>)
    requires Unique(before + [x])
    ensures x.id !in Table(before) && Table(before + [x]) == Table(before)[x.id := x.body]
  {
    forall i | 0 <= i < |before|
      ensures before[i].id != x.id
    {
      assert (before + [x])[i] == before[i] && (before + [x])[|before|] == x;
    }
    InTable(before, x.id);
    AppendTable(before, x);
  }

  lemma LoadOneDescribed(m: Mirror, ps: map<Id, PublicationBody>, x: Publication)
    requires PublicationsDescribed(ps, m.publications) && x.id !in ps
    requires x.body.publisherId in m.members && (Named(x.body).Some? ==> Named(x.body).value in ps)
    ensures var m' := AddPublication(m, x);
            PublicationsDescribed(ps[x.id := x.body], m'.publications)
            && m'.members == m.members && m'.subscriptions == m.subscriptions
  {
    var created := CreatePublication(m, x);
    if Named(x.body).Some? {
      var origin := Named(x.body).value;
      assert PublicationDescribed(ps, m.publications, ps[origin], m.publications[origin]);
    }
    AddedDescribed(ps, m.publications, x.id, x.body, created);
  }

  /** Every subscription of the list refers to a publication and a member, and no id comes twice. */
  ghost predicate Subscribable(t: Tables, xs: seq<Subscription>)
  {
    && Unique(xs)
    && forall i :: 0 <= i < |xs| ==> RefersTo(xs[i].body, t.publications) && xs[i].body.subscriberId in t.members
  }

  ghost predicate SubscriptionsLoaded(m: Mirror, t: Tables, xs: seq<Subscription>)
  {
    var m' := LoadSubscriptions(m, xs);
    && m'.Some? && m'.value.members == m.members && m'.value.publications == m.publications
    && SubscriptionsDescribed(t.members, Table(xs), m'.value.subscriptions)
  }

  lemma SubscribablePrefix(t: Tables, before: seq<Subscription>, x: Subscription)
    requires Subscribable(t, before + [x])
    ensures Subscribable(t, before)
    ensures RefersTo(x.body, t.publications) && x.body.subscriberId in t.members
    ensures x.id !in Table(before) && Table(before + [x]) == Table(before)[x.id := x.body]
  {
    var xs := before + [x];
    assert forall i :: 0 <= i < |before| ==> before[i] == xs[i];
    assert xs[|before|] == x;
    LastIsNew(before, x);
  }

  lemma SplitLast<T>(xs: seq<T>)
    requires xs != []
    ensures xs == xs[..|xs| - 1] + [xs[|xs| - 1]]
  {
  }

  lemma {:induction false} LoadSubscriptionsDescribed(m: Mirror, t: Tables, xs: seq<Subscription>)
    requires SyncedMembers(t.members, m) && PublicationsDescribed(t.publications, m.publications)
    requires m.subscriptions == map[] && Subscribable(t, xs)
    ensures SubscriptionsLoaded(m, t, xs)
    decreases |xs|
  {
    if xs == [] {
      NothingLoaded(m, t);
    } else {
      var before, x := xs[..|xs| - 1], xs[|xs| - 1];
      SplitLast(xs);
      SubscribablePrefix(t, before, x);
      LoadSubscriptionsDescribed(m, t, before);
      LoadedOneMore(m, t, before, x);
    }
  }

  lemma NothingLoaded(m: Mirror, t: Tables)
    requires m.subscriptions == map[]
    ensures SubscriptionsLoaded(m, t, [])
  {
  }

  lemma LoadedOneMore(m: Mirror, t: Tables, before: seq<Subscription>, x: Subscription)
    requires SyncedMembers(t.members, m) && PublicationsDescribed(t.publications, m.publications)
    requires SubscriptionsLoaded(m, t, before)
    requires x.id !in Table(before) && Table(before + [x]) == Table(before)[x.id := x.body]
    requires RefersTo(x.body, t.publications) && x.body.subscriberId in t.members
    ensures SubscriptionsLoaded(m, t, before + [x])
  {
    var m1 := LoadSubscriptions(m, before).value;
    SubscriptionsOneMore(m1, t, Table(before), x);
    LoadOne(m, before, x, m1);
  }

  lemma LoadOne(m: Mirror, before: seq<Subscription>, x: Subscription, m1: Mirror)
    requires LoadSubscriptions(m, before) == Some(m1)
    requires x.id !in m1.subscriptions && x.body.publicationId in m1.publications
    ensures LoadSubscriptions(m, before + [x])
         == Some(m1.(subscriptions := m1.subscriptions[x.id := CreateSubscription(m1, x)]))
  {
    assert (before + [x])[..|before|] == before;
  }

  lemma SubscriptionsOneMore(m: Mirror, t: Tables, ss: map<Id, SubscriptionBody>, x: Subscription)
    requires SyncedMembers(t.members, m) && PublicationsDescribed(t.publications, m.publications)
    requires SubscriptionsDescribed(t.members, ss, m.subscriptions) && x.id !in ss
    requires RefersTo(x.body, t.publications) && x.body.subscriberId in t.members
    ensures x.body.publicationId in m.publications
    ensures SubscriptionsDescribed(t.members, ss[x.id := x.body], m.subscriptions[x.id := CreateSubscription(m, x)])
  {
    var pid := x.body.publicationId;
    assert PublicationDescribed(t.publications, m.publications, t.publications[pid], m.publications[pid]);
    var created := CreateSubscription(m, x);
    assert SubscriptionDescribed(t.members, x.body, created);
    var (ss', os') := (ss[x.id := x.body], m.subscriptions[x.id := created]);
    forall id | id in os'
      ensures SubscriptionDescribed(t.members, ss'[id], os'[id])
    {
      assert id != x.id ==> SubscriptionDescribed(t.members, ss[id], m.subscriptions[id]);
    }
  }

  /** Members are there for all, and what is relayed comes before its relay in the list. */
  ghost predicate Loadable(c: Channel)
  {
    && UniqueIds(c)
    && (forall i :: 0 <= i < |c.publications| ==> c.publications[i].body.publisherId in Table(c.members))
    && (forall i :: 0 <= i < |c.publications| && Named(c.publications[i].body).Some? ==>
          Named(c.publications[i].body).value in Table(c.publications[..i]))
    && (forall i :: 0 <= i < |c.subscriptions| ==>
          && RefersTo(c.subscriptions[i].body, Table(c.publications))
          && c.subscriptions[i].body.subscriberId in Table(c.members))
  }

  /** A mirror that was loaded from such a channel has every object as its record says. */
  lemma LoadDescribed(c: Channel)
    requires Loadable(c)
    ensures Load(c).Some? && Described(TablesOf(c), Load(c).value)
  {
    LoadMembersSynced(c.members);
    var m := LoadMembers(Mirror(map[], map[], map[]), c.members);
    LoadPublicationsDescribed(m, Table(c.members), c.publications);
    LoadSubscriptionsDescribed(LoadPublications(m, c.publications), TablesOf(c), c.subscriptions);
  }

  // ---- What the rooms show ----------------------------------------------------------------

  /** The publisher of what is published: for a relay that of its origin. */
  function PublisherOf(ps: map<Id, PublicationBody>, p: PublicationBody): Id
  {
    match Named(p)
    case None => p.publisherId
    case Some(origin) => if origin in ps then ps[origin].publisherId else p.publisherId
  }

  predicate IsBot(ms: map<Id, MemberBody>, id: Id)
  {
    id in ms && ms[id].kind == Bot
  }

  /**
   A P2P room shows all records.  An SFU room shows the members that are not bots, the publications
   that name an origin, and the subscriptions of members that are not bots.
   */
  ghost function RoomOf(sfu: bool, t: Tables): Room
  {
    Room(MembersOf(sfu, t.members), PublicationsOf(sfu, t.publications),
         SubscriptionsOf(sfu, t.members, t.subscriptions))
  }

  ghost function MembersOf(sfu: bool, ms: map<Id, MemberBody>): map<Id, MemberType>
  {
    map id | id in ms && !(sfu && IsBot(ms, id)) :: ms[id].kind
  }

  ghost function PublicationsOf(sfu: bool, ps: map<Id, PublicationBody>): map<Id, RoomPublication>
  {
    map id | id in ps && !(sfu && Named(ps[id]).None?) :: RoomPublication(PublisherOf(ps, ps[id]), ps[id].contentType)
  }

  ghost function SubscriptionsOf(sfu: bool, ms: map<Id, MemberBody>, ss: map<Id, SubscriptionBody>)
      : map<Id, RoomSubscription>
  {
    map id | id in ss && !(sfu && IsBot(ms, ss[id].subscriberId)) ::
      RoomSubscription(ss[id].publicationId, ss[id].contentType)
  }

  lemma ViewedPublications(sfu: bool, ps: map<Id, PublicationBody>, os: map<Id, PublicationObject>)
    requires PublicationsDescribed(ps, os)
    ensures ViewPublications(sfu, os) == PublicationsOf(sfu, ps)
  {
    forall id | id in os
      ensures ShownPublisher(os[id]) == Some(PublisherOf(ps, ps[id])) && os[id].contentType == ps[id].contentType
      ensures os[id].origin.Some? <==> Named(ps[id]).Some?
    {
      assert PublicationDescribed(ps, os, ps[id], os[id]);
    }
  }

  lemma ViewedSubscriptions(sfu: bool, ms: map<Id, MemberBody>, ss: map<Id, SubscriptionBody>,
                            os: map<Id, SubscriptionObject>)
    requires SubscriptionsDescribed(ms, ss, os)
    ensures ViewSubscriptions(sfu, os) == SubscriptionsOf(sfu, ms, ss)
  {
    assert forall id :: id in os ==> SubscriptionDescribed(ms, ss[id], os[id]);
  }

  lemma ViewIsRoomOf(sfu: bool, t: Tables, m: Mirror)
    requires Described(t, m)
    ensures View(sfu, m) == RoomOf(sfu, t)
  {
    ViewedPublications(sfu, t.publications, m.publications);
    ViewedSubscriptions(sfu, t.members, t.subscriptions, m.subscriptions);
    assert ViewMembers(sfu, m.members) == MembersOf(sfu, t.members);
  }

  lemma {:induction false} StaysDescribed(k: Client, events: seq<Event>)
    requires Described(TablesOf(k.channel), k.mirror) && LogInOrder(k.channel, events)
    ensures var t := ClientRun(k, events); Described(TablesOf(t.channel), t.mirror)
    decreases |events|
  {
    if events != [] {
      var before, e := events[..|events| - 1], events[|events| - 1];
      StaysDescribed(k, before);
      ClientFollowsFold(k, before);
      var k1 := ClientRun(k, before);
      DescribedKept(k1.channel, k1.mirror, e);
    }
  }

  /** After every log in order both rooms show what the channel's records say, each by its rule. */
  lemma RoomsShowTheRecords(k: Client, events: seq<Event>)
    requires Consistent(k) && WellOrdered(k.channel, events)
    requires Described(TablesOf(k.channel), k.mirror) && LogInOrder(k.channel, events)
    ensures var t := ClientRun(k, events);
            && t.sfu == RoomOf(true, TablesOf(t.channel))
            && t.p2p == RoomOf(false, TablesOf(t.channel))
  {
    RoomsShowTheChannel(k, events);
    StaysDescribed(k, events);
    var t := ClientRun(k, events);
    ViewIsRoomOf(true, TablesOf(t.channel), t.mirror);
    ViewIsRoomOf(false, TablesOf(t.channel), t.mirror);
  }
}
