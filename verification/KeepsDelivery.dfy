/** The delivery steps keep the invariant. */
module KeepsDelivery {
  import opened Text
  import opened Model
  import opened EventLog
  import opened RunRegions
  import opened RegistryProofs
  import opened LogProofs
  import opened RunProofs
  import opened Twin
  import opened Invariants

  lemma DuplicateKeeps(c: Casing, s: State, guid: string)
    requires Invariant(c, s)
    ensures Invariant(c, s.(world := DuplicateEvent(s.world, guid).world))
  {
    hide RegistryOk; hide TokensOk; hide PushersOk; hide CiOk; hide ExecutorsOk; hide SignalsOk; hide DeliveriesOk;
    hide SettledOk;
    hide RefsOk; hide HistoryOk; hide PullsOk; hide RefreshesOk; hide DraftOk; hide DenseOk; hide TimesOk;
    hide OriginsOk;
    var k := FindEvent(s.world.log.events, guid);
    if k < |s.world.log.events| {
      var e := s.world.log.events[k].(guid := Guid(s.world.log.nextEventID + 1), createdAt := s.world.now);
      assert AddressOk(s.world.registry, s.world.log.events[k]);
      SilentAppend(c, s, DuplicateAt(s.world.log, s.world.now, k), e, k);
    }
  }

  // An event fetched for delivery is in the list and its App is registered.
  lemma FetchGenuine(c: Casing, s: State, guid: string, invalidSignature: bool)
    requires RegistryOk(c, s.world.registry) && ReadDelivery(s.world, guid, invalidSignature).Some?
    ensures Genuine(s.world.registry, s.world.log, PostOf(ReadDelivery(s.world, guid, invalidSignature).value))
  {
    var k := FindEvent(s.world.log.events, guid);
    assert TakenFrom(s.world.registry, s.world.log, PostOf(ReadDelivery(s.world, guid, invalidSignature).value), k);
  }

  lemma FetchKeeps(s: State, id: int, d: Delivery)
    requires DeliveriesOk(s.world.registry, s.world.log, s.deliveries, s.sent) && id !in s.deliveries
    requires Genuine(s.world.registry, s.world.log, PostOf(d))
             && SettledOk(s.deliveries, s.world.attempts, s.sent, s.logged)
    ensures DeliveriesOk(s.world.registry, s.world.log, s.deliveries[id := Fetched(d)], s.sent)
    ensures SettledOk(s.deliveries[id := Fetched(d)], s.world.attempts, s.sent, s.logged)
  {
    hide Genuine; hide Answers;
    var deliveries := s.deliveries[id := Fetched(d)];
    assert AnsweredIDs(deliveries) == AnsweredIDs(s.deliveries);
    assert forall a, k: nat :: Awaits(deliveries, a, k) <==> Awaits(s.deliveries, a, k);
  }

  lemma SendKeeps(s: State, id: int, statusCode: Option<int>)
    requires DeliveriesOk(s.world.registry, s.world.log, s.deliveries, s.sent) && id in s.deliveries
             && s.deliveries[id].Fetched?
    ensures var d := s.deliveries[id].delivery;
            DeliveriesOk(s.world.registry, s.world.log,
                         s.deliveries[id := Answered(AttemptOf(d, statusCode), |s.sent|)], s.sent + [PostOf(d)])
  {
    hide Genuine;
    assert DeliveringOk(s.world.registry, s.world.log, s.deliveries[id]);
  }

  lemma SendSettles(s: State, id: int, statusCode: Option<int>)
    requires SettledOk(s.deliveries, s.world.attempts, s.sent, s.logged) && id in s.deliveries
             && s.deliveries[id].Fetched?
    ensures var d := s.deliveries[id].delivery;
            SettledOk(s.deliveries[id := Answered(AttemptOf(d, statusCode), |s.sent|)], s.world.attempts,
                      s.sent + [PostOf(d)], s.logged)
  {
    var d := s.deliveries[id].delivery;
    var n := |s.sent|;
    assert Answers(PostOf(d), AttemptOf(d, statusCode));
    hide Answers;
    var deliveries := s.deliveries[id := Answered(AttemptOf(d, statusCode), n)];
    assert AnsweredIDs(deliveries) == AnsweredIDs(s.deliveries) + {id};
    assert Awaits(deliveries, id, n);
    assert forall a, k: nat :: a != id ==> (Awaits(deliveries, a, k) <==> Awaits(s.deliveries, a, k));
    assert forall a, k: nat :: Awaits(s.deliveries, a, k) ==> a != id;
  }

  lemma LogSettles(s: State, id: int)
    requires SettledOk(s.deliveries, s.world.attempts, s.sent, s.logged) && id in s.deliveries
             && s.deliveries[id].Answered?
    ensures var d := s.deliveries[id];
            SettledOk(s.deliveries - {id}, s.world.attempts + [d.attempt], s.sent, s.logged + [d.post])
  {
    hide Answers;
    var d := s.deliveries[id];
    var deliveries, logged := s.deliveries - {id}, s.logged + [d.post];
    assert Awaits(s.deliveries, id, d.post);
    assert AnsweredIDs(s.deliveries) == AnsweredIDs(deliveries) + {id};
    assert forall a, k: nat :: Awaits(deliveries, a, k) <==> Awaits(s.deliveries, a, k) && a != id;
    forall k: nat | k < |s.sent| && k !in logged ensures exists a :: Awaits(deliveries, a, k) {
      assert forall x :: x in s.logged ==> x in logged;
      var a :| Awaits(s.deliveries, a, k);
      assert logged[|s.logged|] == d.post;
      assert Awaits(deliveries, a, k);
    }
  }

  // Messages, attempts and delivery handlers touch no other part of the invariant.
  lemma MessagesMove(c: Casing, s: State, attempts: seq<Attempt>, mutations: nat, deliveries: map<int, Delivering>,
                     sent: seq<Post>, logged: seq<nat>)
    requires Invariant(c, s) && DeliveriesOk(s.world.registry, s.world.log, deliveries, sent)
    requires SettledOk(deliveries, attempts, sent, logged)
    ensures Invariant(c, s.(world := s.world.(attempts := attempts, mutations := mutations), deliveries := deliveries,
                            sent := sent, logged := logged))
  {
    hide RegistryOk; hide TokensOk; hide PushersOk; hide CiOk; hide ExecutorsOk; hide SignalsOk; hide LogOk;
    hide RefsOk; hide HistoryOk; hide PullsOk; hide RefreshesOk; hide DraftOk; hide DeliveriesOk; hide SettledOk;
  }

  lemma MessageFacts(c: Casing, s: State)
    requires Invariant(c, s)
    ensures RegistryOk(c, s.world.registry) && DeliveriesOk(s.world.registry, s.world.log, s.deliveries, s.sent)
    ensures SettledOk(s.deliveries, s.world.attempts, s.sent, s.logged)
  {
    hide RegistryOk; hide DeliveriesOk; hide SettledOk; hide GitOk;
  }

  lemma LogKeeps(s: State, id: int)
    requires DeliveriesOk(s.world.registry, s.world.log, s.deliveries, s.sent)
    ensures DeliveriesOk(s.world.registry, s.world.log, s.deliveries - {id}, s.sent)
  {
    hide Genuine; hide DeliveringOk;
  }

  lemma FetchStepKeeps(c: Casing, s: State, id: int, guid: string, invalidSignature: bool)
    requires Invariant(c, s)
    ensures Invariant(c, DeliveryStep(s, Fetch(id, guid, invalidSignature)))
  {
    MessageFacts(c, s);
    hide Invariant; hide RegistryOk; hide DeliveriesOk; hide SettledOk; hide ReadDelivery; hide Genuine; hide PostOf;
    var w := s.world;
    if id !in s.deliveries && ReadDelivery(w, guid, invalidSignature).Some? {
      var d := ReadDelivery(w, guid, invalidSignature).value;
      FetchGenuine(c, s, guid, invalidSignature);
      FetchKeeps(s, id, d);
      MessagesMove(c, s, w.attempts, w.mutations, s.deliveries[id := Fetched(d)], s.sent, s.logged);
    }
  }

  lemma SendStepKeeps(c: Casing, s: State, id: int, statusCode: Option<int>)
    requires Invariant(c, s)
    ensures Invariant(c, DeliveryStep(s, Send(id, statusCode)))
  {
    MessageFacts(c, s);
    hide Invariant; hide RegistryOk; hide DeliveriesOk; hide SettledOk; hide AttemptOf; hide PostOf;
    if id in s.deliveries && s.deliveries[id].Fetched? {
      var d := s.deliveries[id].delivery;
      SendKeeps(s, id, statusCode);
      SendSettles(s, id, statusCode);
      MessagesMove(c, s, s.world.attempts, s.world.mutations,
                   s.deliveries[id := Answered(AttemptOf(d, statusCode), |s.sent|)], s.sent + [PostOf(d)], s.logged);
    }
  }

  lemma LogStepKeeps(c: Casing, s: State, id: int)
    requires Invariant(c, s)
    ensures Invariant(c, DeliveryStep(s, LogDelivery(id)))
  {
    MessageFacts(c, s);
    hide Invariant; hide RegistryOk; hide DeliveriesOk; hide SettledOk;
    var w := s.world;
    if id in s.deliveries && s.deliveries[id].Answered? {
      var d := s.deliveries[id];
      LogKeeps(s, id);
      LogSettles(s, id);
      MessagesMove(c, s, w.attempts + [d.attempt], w.mutations + 1, s.deliveries - {id}, s.sent, s.logged + [d.post]);
    }
  }

  lemma DeliveryKeeps(c: Casing, s: State, l: DeliveryLabel)
    requires Invariant(c, s)
    ensures Invariant(c, DeliveryStep(s, l))
  {
    hide Invariant; hide DuplicateEvent; hide ReadDelivery; hide AttemptOf; hide PostOf;
    match l
    case Duplicate(guid) => DuplicateKeeps(c, s, guid);
    case Fetch(id, guid, invalidSignature) => FetchStepKeeps(c, s, id, guid, invalidSignature);
    case Send(id, statusCode) => SendStepKeeps(c, s, id, statusCode);
    case LogDelivery(id) => LogStepKeeps(c, s, id);
  }
}
