/** The event list, deliveries and the mutation counter, over every run of the twin. */
module LogTheorems {
  import opened Text
  import opened Model
  import opened EventLog
  import opened ControlRegions
  import opened RunRegions
  import opened LogProofs
  import opened Twin
  import opened Invariants
  import opened Safety
  import opened Evolution

  lemma LogFacts(c: Casing, s: State)
    requires Reachable(c, s)
    ensures LogOk(s.world.registry, s.world.log, s.world.now)
    ensures DeliveriesOk(s.world.registry, s.world.log, s.deliveries, s.sent)
    ensures SettledOk(s.deliveries, s.world.attempts, s.sent, s.logged)
  {
    ReachableOk(c, s);
  }

  // The event at index k carries GUID number k + 1, and the scan for that GUID finds index k.
  lemma GuidsAreDense(c: Casing, s: State, k: nat)
    requires Reachable(c, s) && k < |s.world.log.events|
    ensures s.world.log.events[k].guid == Guid(k + 1) && FindEvent(s.world.log.events, Guid(k + 1)) == k
  {
    LogFacts(c, s);
    FindByGuid(s.world.log, k);
  }

  // Events are created in time order and never in the future.
  lemma CreationTimesAscend(c: Casing, s: State, j: nat, k: nat)
    requires Reachable(c, s) && j <= k < |s.world.log.events|
    ensures s.world.log.events[j].createdAt <= s.world.log.events[k].createdAt <= s.world.now
  {
    LogFacts(c, s);
  }

  // The list is append-only and its entries never change.
  lemma EventsAreImmutable(c: Casing, s: State, labels: seq<Label>, k: nat)
    requires Reachable(c, s) && k < |s.world.log.events|
    ensures k < |Execute(c, s, labels).world.log.events|
    ensures Execute(c, s, labels).world.log.events[k] == s.world.log.events[k]
  {
    ReachableOk(c, s);
    RunsEvolveStates(c, s, labels);
  }

  // However long the chain of duplications, an event agrees with its root original in
  // everything but its GUID and its time.
  lemma DuplicatesAgree(c: Casing, s: State, k: nat)
    requires Reachable(c, s) && k < |s.world.log.events|
    ensures var o := s.world.log.events[k].origin;
            && o <= k && Original(s.world.log.events, o) && SameContent(s.world.log.events[k], s.world.log.events[o])
            && (s.world.log.events[k].guid == s.world.log.events[o].guid <==> o == k)
  {
    LogFacts(c, s);
    hide Reachable; hide TimesOk; hide AddressesOk; hide DeliveriesOk; hide SettledOk; hide SameContent; hide OriginsOk;
    hide DenseOk;
    OriginAgrees(s.world.log, k);
  }

  lemma OriginAgrees(log: Log, k: nat)
    requires DenseOk(log) && OriginsOk(log) && k < |log.events|
    ensures var o := log.events[k].origin;
            && o <= k && Original(log.events, o) && SameContent(log.events[k], log.events[o])
            && (log.events[k].guid == log.events[o].guid <==> o == k)
  {
    hide *;
    OriginMeans(log, k);
    GuidsAre(log, k);
    GuidsAre(log, log.events[k].origin);
    GuidInjective(k + 1, log.events[k].origin + 1);
  }

  lemma GuidsAre(log: Log, k: nat)
    requires DenseOk(log) && k < |log.events|
    ensures log.events[k].guid == Guid(k + 1)
  {
    hide Guid;
  }

  lemma OriginMeans(log: Log, k: nat)
    requires OriginsOk(log) && k < |log.events|
    ensures var o := log.events[k].origin;
            o <= k && Original(log.events, o) && SameContent(log.events[k], log.events[o])
  {
    assert OriginOk(log.events, k);
    hide SameContent;
  }

  // A duplication always takes a fresh GUID and the source's content, for every known GUID.
  lemma DuplicationIsFresh(c: Casing, s: State, k: nat)
    requires Reachable(c, s) && k < |s.world.log.events|
    ensures var done := DuplicateEvent(s.world, Guid(k + 1));
            && done.status == 201 && IsCopy(s.world.log, done.world.log, s.world.now, k)
            && done.world == s.world.(log := done.world.log, mutations := s.world.mutations + 1)
  {
    LogFacts(c, s);
    hide Reachable; hide TimesOk; hide OriginsOk; hide AddressesOk; hide DeliveriesOk; hide SettledOk; hide IsCopy;
    hide DenseOk; hide Guid;
    DuplicateCopies(s.world, k);
  }

  // A GUID no event has is not found, and duplicating it leaves no trace.
  lemma UnknownDuplicate(w: World, guid: string)
    ensures DuplicateEvent(w, guid).status == 404
            <==> forall k :: 0 <= k < |w.log.events| ==> w.log.events[k].guid != guid
    ensures DuplicateEvent(w, guid).status == 404 ==> DuplicateEvent(w, guid).world == w
  {
    hide DuplicateAt;
    var k := FindEvent(w.log.events, guid);
    assert k < |w.log.events| ==> w.log.events[k].guid == guid;
  }

  // One event more: event k's content under a GUID no earlier event has, created now.
  ghost predicate IsCopy(log: Log, log': Log, now: int, k: nat) {
    var n := |log.events|;
    && k < n && |log'.events| == n + 1 && log'.events[..n] == log.events
    && SameContent(log'.events[n], log.events[k]) && log'.events[n].createdAt == now
    && forall j :: 0 <= j < n ==> log'.events[j].guid != log'.events[n].guid
  }

  lemma DuplicateCopies(w: World, k: nat)
    requires DenseOk(w.log) && k < |w.log.events|
    ensures var done := DuplicateEvent(w, Guid(k + 1));
            && done.status == 201 && IsCopy(w.log, done.world.log, w.now, k)
            && done.world == w.(log := done.world.log, mutations := w.mutations + 1)
  {
    FindByGuid(w.log, k);
    CopyAt(w.log, w.now, k);
    hide FindEvent; hide Guid; hide IsCopy; hide DuplicateAt; hide DenseOk;
  }

  lemma CopyAt(log: Log, now: int, k: nat)
    requires DenseOk(log) && k < |log.events|
    ensures IsCopy(log, DuplicateAt(log, now, k), now, k)
  {
    hide Guid; hide DenseOk; hide OriginsOk;
    var e := log.events[k].(guid := Guid(log.nextEventID + 1), createdAt := now);
    assert DuplicateAt(log, now, k).events == log.events + [e];
    hide DuplicateAt;
    assert (log.events + [e])[..|log.events|] == log.events;
    FreshGuid(log);
  }

  lemma FreshGuid(log: Log)
    requires DenseOk(log)
    ensures forall j :: 0 <= j < |log.events| ==> log.events[j].guid != Guid(log.nextEventID + 1)
  {
    hide Guid;
    forall j | 0 <= j < |log.events| ensures log.events[j].guid != Guid(log.nextEventID + 1) {
      GuidInjective(j + 1, log.nextEventID + 1);
    }
  }

  // Any two deliveries of one GUID, at any two moments of a run, are one and the same request to the
  // same place, but for a signature spoilt on purpose.
  lemma RedeliveryIsIdentical(c: Casing, s: State, i: nat, j: nat)
    requires Reachable(c, s) && i < |s.sent| && j < |s.sent| && s.sent[i].guid == s.sent[j].guid
    ensures s.sent[i] == s.sent[j].(invalidSignature := s.sent[i].invalidSignature)
  {
    SentIsGenuine(c, s, i);
    SentIsGenuine(c, s, j);
    hide *;
    GenuineAgree(s.world.registry, s.world.log, s.sent[i], s.sent[j]);
  }

  lemma GenuineAgree(reg: Registry, log: Log, p: Post, q: Post)
    requires Genuine(reg, log, p) && Genuine(reg, log, q) && DenseOk(log) && p.guid == q.guid
    ensures p == q.(invalidSignature := p.invalidSignature)
  {
    hide *;
    var a := GenuineIndex(reg, log, p);
    var b := GenuineIndex(reg, log, q);
    GuidInjective(a + 1, b + 1);
  }

  lemma SentIsGenuine(c: Casing, s: State, i: nat)
    requires Reachable(c, s) && i < |s.sent|
    ensures Genuine(s.world.registry, s.world.log, s.sent[i]) && DenseOk(s.world.log)
  {
    LogFacts(c, s);
    hide Reachable; hide TimesOk; hide OriginsOk; hide AddressesOk; hide Genuine; hide DenseOk; hide SettledOk;
  }

  lemma GenuineIndex(reg: Registry, log: Log, p: Post) returns (k: nat)
    requires Genuine(reg, log, p) && DenseOk(log)
    ensures k < |log.events| && p.guid == Guid(k + 1) && p.kind == log.events[k].kind && p.body == log.events[k].body
    ensures log.events[k].appID in reg.apps && p.destination == reg.apps[log.events[k].appID].webhookURL
    ensures p.secret == reg.apps[log.events[k].appID].webhookSecret
  {
    k :| TakenFrom(reg, log, p, k);
  }

  // What was sent is never taken back, so the previous statement spans every two moments.
  lemma SentOnlyGrows(c: Casing, s: State, labels: seq<Label>)
    requires Reachable(c, s)
    ensures s.sent <= Execute(c, s, labels).sent && s.world.attempts <= Execute(c, s, labels).world.attempts
  {
    ReachableOk(c, s);
    RunsEvolveStates(c, s, labels);
  }

  // Each recorded attempt tells the truth about a message that was sent, and so names an event.
  lemma AttemptsNameEvents(c: Casing, s: State, i: nat)
    requires Reachable(c, s) && i < |s.world.attempts|
    ensures exists k :: 0 <= k < |s.sent| && Answers(s.sent[k], s.world.attempts[i])
    ensures FindEvent(s.world.log.events, s.world.attempts[i].guid) < |s.world.log.events|
  {
    LogFacts(c, s);
    var k := s.logged[i];
    assert Answers(s.sent[k], s.world.attempts[i]);
    SentIsGenuine(c, s, k);
    hide LogOk; hide SettledOk; hide DeliveriesOk; hide Reachable;
    var e: nat :| TakenFrom(s.world.registry, s.world.log, s.sent[k], e);
    var f := FindEvent(s.world.log.events, s.world.attempts[i].guid);
    assert f <= e;
  }

  // No message is lost or recorded twice: attempt i is about message logged[i], no two attempts are
  // about the same one, and the messages without an attempt are, one to one, those of the handlers
  // that have their answer and have yet to record it.
  lemma AttemptsMatchPosts(c: Casing, s: State)
    requires Reachable(c, s)
    ensures |s.logged| == |s.world.attempts| && |s.world.attempts| + |AnsweredIDs(s.deliveries)| == |s.sent|
    ensures forall i :: 0 <= i < |s.logged| ==>
              s.logged[i] < |s.sent| && Answers(s.sent[s.logged[i]], s.world.attempts[i])
    ensures forall i, j :: 0 <= i < j < |s.logged| ==> s.logged[i] != s.logged[j]
    ensures forall k: nat :: k < |s.sent| ==>
              (k !in s.logged <==> exists id ::
                Awaits(s.deliveries, id, k) && Answers(s.sent[k], s.deliveries[id].attempt))
    ensures forall a, b, k: nat :: Awaits(s.deliveries, a, k) && Awaits(s.deliveries, b, k) ==> a == b
  {
    LogFacts(c, s);
    hide LogOk; hide DeliveriesOk; hide Reachable; hide Answers;
  }

  // The sender written into a push body, found through the pusher's token, is the App the
  // event is addressed to, found through the repository.
  lemma SenderIsAddressee(c: Casing, s: State, k: nat)
    requires Reachable(c, s) && k < |s.world.log.events| && s.world.log.events[k].body.PushBody?
    ensures var e := s.world.log.events[k];
            && e.body.sender == e.appID && e.repositoryID in s.world.registry.repositories
            && s.world.registry.repositories[e.repositoryID].installationID in s.world.registry.installs
            && e.appID == s.world.registry.installs[s.world.registry.repositories[e.repositoryID].installationID].appID
  {
    LogFacts(c, s);
    assert AddressOk(s.world.registry, s.world.log.events[k]);
  }

  // Every event in the list, copies included, tells the registry's truth: its kind and action are
  // those of its body, its repository, account, installation and sender are registered as it says,
  // and it is addressed to the App behind them.
  lemma EventsTellRegistry(c: Casing, s: State, k: nat)
    requires Reachable(c, s) && k < |s.world.log.events|
    ensures var reg, e := s.world.registry, s.world.log.events[k];
            && BodyOk(reg, e) && (e.repositoryID == 0 <==> e.body.InstallationBody?)
            && (e.repositoryID != 0 ==>
                  && e.repositoryID in reg.repositories
                  && reg.repositories[e.repositoryID].installationID in reg.installs
                  && e.appID == reg.installs[reg.repositories[e.repositoryID].installationID].appID)
  {
    LogFacts(c, s);
    assert AddressOk(s.world.registry, s.world.log.events[k]);
    hide BodyOk;
  }

  // The mutation counter is a version stamp: it never decreases, and two moments with equal
  // counters show equal snapshots in every field but unsupported requests and observation errors.
  lemma CounterIsStamp(c: Casing, s: State, labels: seq<Label>)
    requires Reachable(c, s)
    ensures var s' := Execute(c, s, labels);
            && s.world.mutations <= s'.world.mutations
            && (s.world.mutations == s'.world.mutations ==>
                  GetState(s.world).(errors := [], unsupported := [])
                      == GetState(s'.world).(errors := [], unsupported := []))
  {
    ReachableOk(c, s);
    RunsEvolveStates(c, s, labels);
  }
}
