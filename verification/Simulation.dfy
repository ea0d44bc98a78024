/** Schedules run on the server itself: each label performs its locked region on the server's own
    fields, and what the server shows stays equal to the twin's world. What is proved of every
    reachable state of the twin therefore holds of the server under every schedule. */
module Simulation {
  import opened Text
  import opened RefListing
  import opened Model
  import opened EventLog
  import opened ControlRegions
  import opened PublicRegions
  import opened RunRegions
  import opened ReceiveRegions
  import opened Twin
  import opened Frames
  import opened Server

  method PerformControl(server: Server, s: State, l: ControlLabel) returns (s': State)
    requires server.Valid() && server.View() == s.world
    modifies server, InstallSets(server.installs)
    ensures server.Valid() && server.View() == s'.world && s' == ControlStep(server.casing, s, l)
    ensures fresh(InstallSets(server.installs) - old(InstallSets(server.installs)))
  {
    hide CreateApp; hide CreateInstallation; hide CreateRepository; hide CheckPull; hide FinishPull;
    hide ChangePullState; hide AdvanceTime;
    hide ConfigureWorkflow; hide RecordUnsupported; hide DraftOf; hide GitOf; hide AddRepositoryStep; hide Server.View;
    hide Server.Valid;
    match l
    case AddApp(app, keyOk) =>
      var _ := server.CreateApp(app, keyOk);
      s' := s.(world := server.View());
    case AddInstallation(input) =>
      var _ := server.CreateInstallation(input);
      s' := s.(world := server.View());
    case AddRepository(input, initOk, configOk, found) =>
      s' := PerformAdd(server, s, l);
    case OpenPull(input) =>
      var status, draft := server.BeginPullRequest(input, GitOf(s, input.repositoryID));
      s' := if status == 0 then s.(drafting := Some(draft)) else s;
    case ClosePull =>
      s' := s;
      if s.drafting.Some? {
        var draft := s.drafting.value;
        var _ := server.FinishPullRequest(draft, GitOf(s, draft.key.repositoryID));
        s' := s.(world := server.View(), drafting := None);
      }
    case SetPullState(key, state) =>
      var _ := server.ChangePullRequestState(key, state);
      s' := s.(world := server.View());
    case Advance(duration) =>
      var _ := server.AdvanceTime(duration);
      s' := s.(world := server.View());
    case Configure(repo, workflow, refOk) =>
      var _ := server.ConfigureWorkflow(repo, workflow, refOk);
      s' := s.(world := server.View());
    case Unsupport(verb, path) =>
      server.RecordUnsupported(verb, path);
      s' := s.(world := server.View());
  }

  method PerformAdd(server: Server, s: State, l: ControlLabel) returns (s': State)
    requires l.AddRepository? && server.Valid() && server.View() == s.world
    modifies server, InstallSets(server.installs)
    ensures server.Valid() && server.View() == s'.world && s' == AddRepositoryStep(server.casing, s, l)
    ensures server.installs == old(server.installs)
  {
    hide CreateRepository; hide GitRefs; hide Reading; hide Server.View; hide Server.Valid;
    s' := s;
    if GitRefs(l.found) {
      var status := server.CreateRepository(l.repository, l.initOk, l.configOk);
      if status == 201 {
        s' := s.(world := server.View(),
                 git := s.git[l.repository.id := l.found],
                 initial := s.initial[l.repository.id := Base(0, 0, Reading(l.found))],
                 lastHeld := s.lastHeld[l.repository.id := l.found]);
      }
    }
  }

  // The copy of an authenticated token that a request carries along.
  method CarryToken(server: Server, t: Token) returns (token: TokenRecord)
    requires server.Valid()
    ensures server.Valid() && server.View() == old(server.View())
    ensures fresh(token.repositoryIDs) && TokenView(token) == t
  {
    var ids := new RepositorySet();
    var rest := t.repositoryIDs;
    while rest != {}
      invariant fresh(ids) && rest <= t.repositoryIDs && ids.ids == t.repositoryIDs - rest
      decreases rest
    {
      SomeID(rest);
      var id :| id in rest;
      ids.Add(id);
      rest := rest - {id};
    }
    token := TokenRecord(t.value, t.installationID, ids, t.permissions, t.expiresAt);
    server.SetsKept();
  }

  method PerformMint(server: Server, s: State, id: int, value: string) returns (s': State)
    requires server.Valid() && server.View() == s.world
    modifies server
    ensures server.Valid() && server.View() == s'.world && s' == PublicStep(server.casing, s, MintToken(id, value))
    ensures server.installs == old(server.installs)
  {
    hide PublicRegions.CreateInstallationToken; hide Server.View; hide Server.Valid;
    s' := s;
    if MayMint(s, id, value) {
      var _ := server.CreateInstallationToken(s.mints[id].appID, s.mints[id].request, value);
      s' := s.(world := server.View(), mints := s.mints - {id});
    }
  }

  method PerformCancel(server: Server, s: State, id: int, delivered: bool) returns (s': State)
    requires server.Valid() && server.View() == s.world
    modifies server
    ensures server.Valid() && server.View() == s'.world && s' == PublicStep(server.casing, s, Cancel(id, delivered))
    ensures server.installs == old(server.installs)
  {
    hide CancelRun; hide Server.View; hide Server.Valid;
    s' := s.(cancels := s.cancels - {id});
    if id in s.cancels {
      var r := s.cancels[id];
      var token := CarryToken(server, r.token);
      var _ := server.CancelWorkflowRun(token, r.owner, r.name, r.runID, delivered);
      s' := s.(world := server.View(), cancels := s.cancels - {id});
    }
  }

  // Authenticating a request: the token it will carry, if its credential is good.
  method Admit(server: Server, raw: string) returns (token: Option<Token>)
    requires server.Valid()
    ensures server.Valid() && server.View() == old(server.View())
    ensures token == Authenticate(server.View(), raw)
  {
    hide Authenticate; hide Server.View; hide Server.Valid;
    var found := server.AuthenticateInstallationToken(raw);
    return if found.Some? then Some(TokenView(found.value)) else None;
  }

  method PerformPublic(server: Server, s: State, l: PublicLabel) returns (s': State)
    requires server.Valid() && server.View() == s.world
    modifies server
    ensures server.Valid() && server.View() == s'.world && s' == PublicStep(server.casing, s, l)
    ensures server.installs == old(server.installs)
  {
    hide PublicRegions.CreateInstallationToken; hide CancelWorld; hide Authenticate; hide CheckMint; hide GetStep;
    hide MayMint;
    hide Server.View; hide Server.Valid;
    match l
    case MintToken(id, value) => s' := PerformMint(server, s, id, value);
    case Cancel(id, delivered) => s' := PerformCancel(server, s, id, delivered);
    case BeginCancel(id, raw, owner, name, runID) =>
      var token := Admit(server, raw);
      s' := s.(cancels := if id in s.cancels || token.None? then s.cancels
                          else s.cancels[id := Cancellation(token.value, owner, name, runID)]);
    case FindIssuer(_, _, _, _, _, _) => s' := PublicStep(server.casing, s, l);
    case CheckTimes(_) => s' := PublicStep(server.casing, s, l);
    case BeginGet(id, raw, owner, name, number) =>
      var token := Admit(server, raw);
      s' := PublicStep(server.casing, s, l);
      GetKeepsWorld(server.casing, s, l);
    case ReadStored(id) => s' := PerformRead(server, s, id);
    case ResolveBase(_) =>
      s' := PublicStep(server.casing, s, l);
      GetKeepsWorld(server.casing, s, l);
    case ResolveHead(_) =>
      s' := PublicStep(server.casing, s, l);
      GetKeepsWorld(server.casing, s, l);
  }

  lemma GetKeepsWorld(c: Casing, s: State, l: PublicLabel)
    requires l.BeginGet? || l.ReadStored? || l.ResolveBase? || l.ResolveHead?
    ensures PublicStep(c, s, l).world == s.world
  {
    GetFrame(c, s, l);
    hide GetStep;
  }

  method PerformRead(server: Server, s: State, id: int) returns (s': State)
    requires server.Valid() && server.View() == s.world
    ensures server.Valid() && server.View() == s'.world && s' == PublicStep(server.casing, s, ReadStored(id))
  {
    hide ReadPull; hide AfterRead; hide Server.View; hide Server.Valid;
    s' := s;
    if HasAsked(s, id) {
      var token := CarryToken(server, s.gets[id].token);
      var stored := server.LookupPull(token, s.gets[id].owner, s.gets[id].name, s.gets[id].number);
      s' := s.(gets := AfterRead(s.gets, id, stored));
    }
  }

  method PerformClaim(server: Server, s: State, id: int, runID: int) returns (s': State)
    requires server.Valid() && server.View() == s.world
    modifies server
    ensures server.Valid() && server.View() == s'.world && s' == RunStep(s, ClaimRun(id, runID))
    ensures server.installs == old(server.installs)
  {
    hide CheckClaim; hide Server.View; hide Server.Valid;
    s' := s;
    if id !in s.executors {
      var status, index, repository, workflow := server.ClaimRun(runID);
      if status == 0 {
        hide Claimant;
        s' := s.(world := server.View(), executors := s.executors[id := Preparing(runID, index, repository, workflow)]);
      }
    }
  }

  method PerformAbandon(server: Server, s: State, id: int) returns (s': State)
    requires server.Valid() && server.View() == s.world
    modifies server
    ensures server.Valid() && server.View() == s'.world && s' == RunStep(s, Abandon(id))
    ensures server.installs == old(server.installs)
  {
    hide Release; hide Server.View; hide Server.Valid;
    s' := s;
    if IsPreparing(s, id) {
      server.ReleaseClaim(s.executors[id].runID);
      s' := s.(world := server.View(), executors := s.executors - {id});
    }
  }

  method PerformStart(server: Server, s: State, id: int, startOk: bool) returns (s': State)
    requires server.Valid() && server.View() == s.world
    modifies server
    ensures server.Valid() && server.View() == s'.world && s' == RunStep(s, StartProcess(id, startOk))
    ensures server.installs == old(server.installs)
  {
    server.RunsShown();
    hide StartRun; hide AfterStart; hide Server.View; hide Server.Valid;
    s' := s;
    if MayStart(s, id) {
      var status := server.StartRunner(s.executors[id].repository, s.executors[id].index, id, startOk);
      s' := s.(world := server.View(), executors := AfterStart(s.executors, id, status == 0));
    }
  }

  method PerformFinish(server: Server, s: State, id: int, exitZero: bool, logs: string) returns (s': State)
    requires server.Valid() && server.View() == s.world
    modifies server
    ensures server.Valid() && server.View() == s'.world && s' == RunStep(s, FinishProcess(id, exitZero, logs))
    ensures server.installs == old(server.installs)
  {
    server.RunsShown();
    hide FinishRun; hide Server.View; hide Server.Valid;
    s' := s;
    if MayFinish(s, id) {
      var e := s.executors[id];
      server.FinishRunner(e.repository, e.index, exitZero, logs);
      s' := s.(world := server.View(), executors := s.executors - {id});
    }
  }

  method PerformRun(server: Server, s: State, l: RunLabel) returns (s': State)
    requires server.Valid() && server.View() == s.world
    modifies server
    ensures server.Valid() && server.View() == s'.world && s' == RunStep(s, l)
    ensures server.installs == old(server.installs)
  {
    hide MayClaim; hide IsPreparing; hide MayStart; hide MayFinish; hide Started; hide Claimant; hide FinishRun;
    hide Release; hide Claim;
    hide TransitionRun; hide Server.View; hide Server.Valid;
    match l
    case ClaimRun(id, runID) => s' := PerformClaim(server, s, id, runID);
    case Abandon(id) => s' := PerformAbandon(server, s, id);
    case StartProcess(id, startOk) => s' := PerformStart(server, s, id, startOk);
    case StopProcesses => s' := s;
    case FinishProcess(id, exitZero, logs) => s' := PerformFinish(server, s, id, exitZero, logs);
    case Transition(runID, wanted, conclusion) =>
      var _ := server.TransitionWorkflowRun(runID, wanted, conclusion);
      s' := s.(world := server.View());
  }

  method PerformDelivery(server: Server, s: State, l: DeliveryLabel) returns (s': State)
    requires server.Valid() && server.View() == s.world
    modifies server
    ensures server.Valid() && server.View() == s'.world && s' == DeliveryStep(s, l)
    ensures server.installs == old(server.installs)
  {
    hide RunRegions.DuplicateEvent; hide ReadDelivery; hide LogAttempt; hide AttemptOf; hide PostOf; hide Server.View;
    hide Server.Valid;
    s' := s;
    match l
    case Duplicate(guid) =>
      var _ := server.DuplicateEvent(guid);
      s' := s.(world := server.View());
    case Fetch(id, guid, invalidSignature) =>
      var delivery := server.BeginDelivery(guid, invalidSignature);
      if id !in s.deliveries && delivery.Some? {
        s' := s.(deliveries := s.deliveries[id := Fetched(delivery.value)]);
      }
    case Send(_, _) => s' := DeliveryStep(s, l);
    case LogDelivery(id) =>
      if id in s.deliveries && s.deliveries[id].Answered? {
        server.FinishDelivery(s.deliveries[id].attempt);
        s' := s.(world := server.View(), logged := s.logged + [s.deliveries[id].post],
                 deliveries := s.deliveries - {id});
      }
  }

  method PerformBeginPush(server: Server, s: State, id: int, raw: string, owner: string, name: string)
    returns (s': State)
    requires server.Valid() && server.View() == s.world
    ensures server.Valid() && server.View() == s'.world
            && s' == ReceiveStep(server.casing, s, BeginPush(id, raw, owner, name))
  {
    hide AuthorizePush; hide Server.View; hide Server.Valid;
    var who := server.BeginReceivePack(raw, owner, name);
    s' := s;
    if id !in s.waiting && who.Some? {
      s' := s.(waiting := s.waiting[id := Waiter(TokenView(who.value.0), who.value.1)]);
    }
  }

  method PerformRecord(server: Server, s: State, repo: int, ancestry: Ancestry) returns (s': State)
    requires server.Valid() && server.View() == s.world
    modifies server
    ensures server.Valid() && server.View() == s'.world
            && s' == ReceiveStep(server.casing, s, RecordPush(repo, ancestry))
    ensures server.installs == old(server.installs)
  {
    hide ReceiveRegions.RecordRefChanges; hide Server.View; hide Server.Valid;
    s' := s;
    if IsObserved(s, repo) {
      var p := s.packs[repo];
      var token := CarryToken(server, p.token);
      server.RecordRefChanges(p.repository, token, p.before, p.after, ancestry);
      s' := s.(world := server.View(), packs := s.packs[repo := Recording(p.repository)]);
    }
  }

  method PerformReceive(server: Server, s: State, l: ReceiveLabel) returns (s': State)
    requires server.Valid() && server.View() == s.world
    modifies server
    ensures server.Valid() && server.View() == s'.world && s' == ReceiveStep(server.casing, s, l)
    ensures server.installs == old(server.installs)
  {
    hide AuthorizePush; hide RecordedWorld; hide IsObserved; hide PackStep; hide MoveStep; hide LockStep;
    hide Server.View; hide Server.Valid;
    s' := s;
    match l
    case BeginPush(id, raw, owner, name) => s' := PerformBeginPush(server, s, id, raw, owner, name);
    case Lock(id) =>
      LockFrame(s, id);
      s' := LockStep(s, id);
    case RecordPush(repo, ancestry) => s' := PerformRecord(server, s, repo, ancestry);
    case MoveRef(repo, ref, target) =>
      if repo in s.packs && s.packs[repo].Serving? {
        MoveFrame(s, repo, ref, target);
        s' := MoveStep(s, repo, ref, target);
      }
    case _ =>
      if l.repo in s.packs {
        s' := PerformPack(server, s, l.repo, s.packs[l.repo], l);
      }
  }

  method PerformPack(server: Server, s: State, repo: int, p: Pack, l: ReceiveLabel) returns (s': State)
    requires server.Valid() && server.View() == s.world
    modifies server
    ensures server.Valid() && server.View() == s'.world && s' == PackStep(s, repo, p, l)
    ensures server.installs == old(server.installs)
  {
    hide ReceiveRegions.RecordObservationError; hide RefreshPull; hide NextPhase; hide WithPack; hide Server.View;
    hide Server.Valid;
    if l.SnapshotAfter? && !l.ok && p.Serving? {
      server.RecordObservationError(p.repository.id);
    } else if l.WritePull? && p.Writing? {
      server.WriteSnapshot(p.key, p.baseRef, p.headRef, p.baseSHA, p.headSHA);
    }
    s' := s.(world := server.View(), packs := WithPack(s.packs, repo, NextPhase(s.world, GitOf(s, repo), p, l)));
  }

  method Perform(server: Server, s: State, l: Label) returns (s': State)
    requires server.Valid() && server.View() == s.world
    modifies server, InstallSets(server.installs)
    ensures server.Valid() && server.View() == s'.world && s' == Step(server.casing, s, l)
    ensures fresh(InstallSets(server.installs) - old(InstallSets(server.installs)))
  {
    hide ControlStep; hide PublicStep; hide RunStep; hide DeliveryStep; hide ReceiveStep; hide Server.View;
    hide Server.Valid;
    s' := s;
    if !(s.drafting.Some? && NeedsLock(l)) {
      match l
      case OnControl(k) => s' := PerformControl(server, s, k);
      case OnPublic(p) => s' := PerformPublic(server, s, p);
      case OnRun(r) => s' := PerformRun(server, s, r);
      case OnDelivery(d) => s' := PerformDelivery(server, s, d);
      case OnReceive(r) => s' := PerformReceive(server, s, r);
    }
  }

  // Any schedule, run on a new server, leaves it showing exactly the world the twin's run ends in.
  method RunSchedule(casing: Casing, now: int, labels: seq<Label>) returns (server: Server, s: State)
    ensures fresh(server) && server.Valid() && server.casing == casing
    ensures s == Execute(casing, Start(now), labels) && server.View() == s.world
  {
    server := new Server(casing, now);
    s := Start(now);
    hide Step; hide Server.View; hide Server.Valid;
    for k := 0 to |labels|
      invariant fresh(server) && fresh(InstallSets(server.installs)) && server.Valid() && server.casing == casing
      invariant s == Execute(casing, Start(now), labels[..k]) && server.View() == s.world
    {
      assert labels[..k + 1][..k] == labels[..k];
      s := Perform(server, s, labels[k]);
    }
    assert labels[..|labels|] == labels;
  }
}
