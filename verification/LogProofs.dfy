/** What the pending-event list keeps: dense GUIDs, ordered creation times, duplicates that
    agree with their root original, and App ids that agree with the registry. */
module LogProofs {
  import opened Text
  import opened Model
  import opened EventLog
  import opened RegistryProofs

  // The event at index k has GUID number k + 1.
  ghost predicate DenseOk(log: Log) {
    log.nextEventID == |log.events| && forall k :: 0 <= k < |log.events| ==> log.events[k].guid == Guid(k + 1)
  }

  ghost predicate TimesOk(log: Log, now: int) {
    && (forall j, k :: 0 <= j <= k < |log.events| ==> log.events[j].createdAt <= log.events[k].createdAt)
    && (forall k :: 0 <= k < |log.events| ==> log.events[k].createdAt <= now)
  }

  ghost predicate SameContent(a: Event, b: Event) {
    a.kind == b.kind && a.action == b.action && a.appID == b.appID && a.repositoryID == b.repositoryID
        && a.body == b.body
  }

  // Every event agrees with an original at or before it.
  ghost predicate OriginOk(events: seq<Event>, k: nat)
    requires k < |events|
  {
    var o := events[k].origin;
    o <= k && Original(events, o) && SameContent(events[k], events[o])
  }

  ghost predicate OriginsOk(log: Log) {
    forall k :: 0 <= k < |log.events| ==> OriginOk(log.events, k)
  }

  // A body's repository is the event's own, under its registered name and installation.
  ghost predicate Names(reg: Registry, id: int, r: EventRepository, installationID: int) {
    && id in reg.repositories && r.id == id
    && r.fullName == reg.repositories[id].owner + "/" + reg.repositories[id].name
    && installationID == reg.repositories[id].installationID
  }

  // A body's account is that of a registered installation of the event's App.
  ghost predicate NamesAccount(reg: Registry, e: Event, installationID: int, account: string, accountType: string) {
    && installationID in reg.installs && reg.installs[installationID].appID == e.appID
    && reg.installs[installationID].owner == account && reg.installs[installationID].ownerType == accountType
  }

  // Each kind of event tells the registry's truth about what it concerns.
  ghost predicate BodyOk(reg: Registry, e: Event) {
    match e.body
    case PushBody(_, _, _, _, _, _, repository, installationID, sender) =>
      e.kind == "push" && e.action == "" && sender == e.appID && Names(reg, e.repositoryID, repository, installationID)
    case RunBody(action, _, _, _, _, _, _, _, _, _, _, repository, installationID) =>
      e.kind == "workflow_run" && e.action == action && Names(reg, e.repositoryID, repository, installationID)
    case InstallationBody(action, installationID, account, accountType, permissions, sender) =>
      && e.kind == "installation" && e.action == action == "created" && sender == e.appID
      && NamesAccount(reg, e, installationID, account, accountType)
      && permissions == reg.installs[installationID].permissions
    case RepositoriesBody(action, installationID, account, accountType, added, sender) =>
      && e.kind == "installation_repositories" && e.action == action == "added" && sender == e.appID
      && NamesAccount(reg, e, installationID, account, accountType)
      && Names(reg, e.repositoryID, added, installationID)
  }

  // The App an event goes to is the App of its repository's installation.
  ghost predicate AddressOk(reg: Registry, e: Event) {
    && (e.body.InstallationBody? <==> e.repositoryID == 0)
    && (e.repositoryID != 0 ==>
          && e.repositoryID in reg.repositories
          && reg.repositories[e.repositoryID].installationID in reg.installs
          && e.appID == reg.installs[reg.repositories[e.repositoryID].installationID].appID)
    && BodyOk(reg, e)
  }

  ghost predicate AddressesOk(reg: Registry, log: Log) {
    forall k :: 0 <= k < |log.events| ==> AddressOk(reg, log.events[k])
  }

  ghost predicate LogOk(reg: Registry, log: Log, now: int) {
    DenseOk(log) && TimesOk(log, now) && OriginsOk(log) && AddressesOk(reg, log)
  }

  // One event added at the end, with the next GUID and the current time.
  ghost predicate Added(log: Log, log': Log, now: int, e: Event) {
    log' == Log(log.events + [e], log.nextEventID + 1) && e.guid == Guid(log.nextEventID + 1) && e.createdAt == now
  }

  lemma AddedKeepsDense(log: Log, log': Log, now: int, e: Event)
    requires DenseOk(log) && Added(log, log', now, e)
    ensures DenseOk(log')
  {
    hide Guid;
  }

  lemma AddedKeepsTimes(log: Log, log': Log, now: int, e: Event)
    requires TimesOk(log, now) && Added(log, log', now, e)
    ensures TimesOk(log', now)
  {
  }

  lemma AddedKeepsOrigins(log: Log, log': Log, now: int, e: Event, k: nat)
    requires OriginsOk(log) && Added(log, log', now, e) && k <= |log.events|
    requires if k == |log.events| then e.origin == k
             else e.origin == log.events[k].origin && SameContent(e, log.events[k])
    ensures OriginsOk(log')
  {
    forall j | 0 <= j < |log.events| ensures OriginOk(log'.events, j) {
      assert OriginOk(log.events, j);
    }
    if k < |log.events| {
      assert OriginOk(log.events, k);
    }
    assert OriginOk(log'.events, |log.events|);
  }

  lemma AddedKeepsAddresses(reg: Registry, log: Log, log': Log, now: int, e: Event)
    requires AddressesOk(reg, log) && Added(log, log', now, e) && AddressOk(reg, e)
    ensures AddressesOk(reg, log')
  {
    forall k | 0 <= k < |log'.events| ensures AddressOk(reg, log'.events[k]) {
      if k < |log.events| {
        assert AddressOk(reg, log.events[k]);
      }
    }
  }

  lemma AddedKeepsLog(reg: Registry, log: Log, log': Log, now: int, e: Event, k: nat)
    requires LogOk(reg, log, now) && Added(log, log', now, e) && AddressOk(reg, e) && k <= |log.events|
    requires if k == |log.events| then e.origin == k
             else e.origin == log.events[k].origin && SameContent(e, log.events[k])
    ensures LogOk(reg, log', now) && log.events <= log'.events
  {
    AddedKeepsDense(log, log', now, e);
    AddedKeepsTimes(log, log', now, e);
    AddedKeepsOrigins(log, log', now, e, k);
    AddedKeepsAddresses(reg, log, log', now, e);
  }

  lemma AppendKeepsLog(reg: Registry, log: Log, now: int, kind: string, action: string, appID: int, repositoryID: int,
                       body: Body)
    requires LogOk(reg, log, now)
    requires AddressOk(reg, Event(Guid(log.nextEventID + 1), kind, action, appID, repositoryID, now, body,
                                  |log.events|))
    ensures LogOk(reg, AppendAppEvent(log, now, kind, action, appID, repositoryID, body), now)
    ensures log.events <= AppendAppEvent(log, now, kind, action, appID, repositoryID, body).events
  {
    var e := Event(Guid(log.nextEventID + 1), kind, action, appID, repositoryID, now, body, |log.events|);
    AddedKeepsLog(reg, log, AppendAppEvent(log, now, kind, action, appID, repositoryID, body), now, e, |log.events|);
  }

  lemma RegistryGrowthKeepsLog(reg: Registry, reg': Registry, log: Log, now: int)
    requires LogOk(reg, log, now) && Grows(reg, reg')
    ensures LogOk(reg', log, now)
  {
    forall k | 0 <= k < |log.events| ensures AddressOk(reg', log.events[k]) {
      assert AddressOk(reg, log.events[k]);
    }
  }

  // The scan for a GUID finds the event its counter numbers, whatever the counter's width.
  lemma FindByGuid(log: Log, k: nat)
    requires DenseOk(log) && k < |log.events|
    ensures FindEvent(log.events, Guid(k + 1)) == k
  {
    hide FindEvent; hide Guid;
    var j := FindEvent(log.events, Guid(k + 1));
    assert log.events[k].guid == Guid(k + 1);
    assert j <= k;
    GuidInjective(j + 1, k + 1);
  }
}
