/** The control steps keep the invariant. */
module KeepsControl {
  import opened Text
  import opened RefListing
  import opened Model
  import opened EventLog
  import opened ControlRegions
  import opened RunRegions
  import opened RegistryProofs
  import opened LogProofs
  import opened RunProofs
  import opened Twin
  import opened Invariants

  // A registry that grew, with no repository added, changes nothing else.
  lemma RegistryGrew(c: Casing, s: State, reg: Registry, mutations: nat)
    requires Invariant(c, s) && RegistryOk(c, reg) && Grows(s.world.registry, reg)
    requires reg.repositories == s.world.registry.repositories
    ensures Invariant(c, s.(world := s.world.(registry := reg, mutations := mutations)))
  {
    RegistryGrewWorld(c, s, reg);
  }

  lemma RegistryGrewWorld(c: Casing, s: State, reg: Registry)
    requires WorldOk(c, s) && RegistryOk(c, reg) && Grows(s.world.registry, reg)
    ensures WorldOk(c, s.(world := s.world.(registry := reg)))
  {
    var reg0 := s.world.registry;
    GrowthKeepsTokens(reg0, reg, s.world.tokens, s.world.now);
    GrowthKeepsPushers(reg0, reg, s.waiting, s.packs);
    RegistryGrowthKeepsLog(reg0, reg, s.world.log, s.world.now);
    GrowthKeepsCi(reg0, reg, s.world.ci, s.world.log, s.executors);
    GrowthKeepsDeliveries(reg0, reg, s.world.log, s.world.log, s.deliveries, s.sent);
  }

  // One silent event appended by a control handler.
  lemma LogGrew(c: Casing, s: State, log: Log, e: Event)
    requires Invariant(c, s) && Added(s.world.log, log, s.world.now, e) && AddressOk(s.world.registry, e)
    requires e.origin == |s.world.log.events| && !e.body.PushBody? && !e.body.RunBody?
    ensures Invariant(c, s.(world := s.world.(log := log)))
  {
    SilentAppend(c, s, log, e, |s.world.log.events|);
  }

  lemma InstallationEventAdded(reg: Registry, log: Log, now: int, i: Installation)
    requires i.id in reg.installs && reg.installs[i.id] == i
    ensures var log' := AppendInstallationEvent(log, now, i);
            var e := log'.events[|log.events|];
            Added(log, log', now, e) && AddressOk(reg, e) && e.origin == |log.events| && e.body.InstallationBody?
  {
  }

  lemma RepositoriesEventAdded(reg: Registry, log: Log, now: int, i: Installation, r: Repository)
    requires r.id != 0 && r.id in reg.repositories && reg.repositories[r.id] == r && r.installationID in reg.installs
    requires i == reg.installs[r.installationID] && i.id == r.installationID
    ensures var log' := AppendRepositoriesEvent(log, reg, now, i, r);
            var e := log'.events[|log.events|];
            Added(log, log', now, e) && AddressOk(reg, e) && e.origin == |log.events| && e.body.RepositoriesBody?
  {
  }

  lemma AddInstallationKeeps(c: Casing, s: State, input: InstallationInput)
    requires Invariant(c, s)
    ensures Invariant(c, s.(world := CreateInstallation(s.world, input).world))
  {
    hide WorldOk; hide GitOk;
    var done := CreateInstallation(s.world, input);
    if done.status == 201 {
      assert RegistryOk(c, s.world.registry) by { InvariantRegistry(c, s); }
      CreateInstallationKeepsRegistry(c, s.world, input);
      var mid := s.(world := s.world.(registry := done.world.registry, mutations := s.world.mutations + 1));
      RegistryGrew(c, s, done.world.registry, s.world.mutations + 1);
      if input.owner != "" {
        InstallationEventAdded(done.world.registry, s.world.log, s.world.now, done.world.registry.installs[input.id]);
        LogGrew(c, mid, done.world.log, done.world.log.events[|s.world.log.events|]);
      }
    }
  }

  lemma InvariantRegistry(c: Casing, s: State)
    requires Invariant(c, s)
    ensures RegistryOk(c, s.world.registry)
  {
  }

  lemma AddRepositoryKeeps(c: Casing, s: State, l: ControlLabel)
    requires Invariant(c, s) && l.AddRepository?
    ensures Invariant(c, AddRepositoryStep(c, s, l))
  {
    InvariantRegistry(c, s);
    AddRepositoryIs(c, s, l);
    hide Invariant; hide RegistryOk; hide Grows; hide GitRefs; hide CreateRepository; hide AppendRepositoriesEvent;
    hide AddRepositoryStep;
    var done := CreateRepository(c, s.world, l.repository, l.initOk, l.configOk);
    if done.status == 201 && GitRefs(l.found) {
      CreateRepositoryKeepsRegistry(c, s.world, l.repository, l.initOk, l.configOk);
      var reg := done.world.registry;
      RepositoryAdded(c, s, reg, l.repository.id, l.found, s.world.mutations + 1);
      var mid := WithRepository(s, reg, l.repository.id, l.found, s.world.mutations + 1);
      var i := reg.installs[l.repository.installationID];
      if i.owner != "" {
        RepositoriesEventAdded(reg, s.world.log, s.world.now, i, reg.repositories[l.repository.id]);
        LogGrew(c, mid, done.world.log, done.world.log.events[|s.world.log.events|]);
      }
    }
  }

  lemma AddRepositoryIs(c: Casing, s: State, l: ControlLabel)
    requires l.AddRepository?
    ensures var done := CreateRepository(c, s.world, l.repository, l.initOk, l.configOk);
            var s' := AddRepositoryStep(c, s, l);
            if done.status == 201 && GitRefs(l.found) then
              var reg := done.world.registry;
              && l.repository.installationID in reg.installs && l.repository.id in reg.repositories
              && l.repository.id !in s.world.registry.repositories
              && reg.repositories.Keys == s.world.registry.repositories.Keys + {l.repository.id}
              && reg.repositories[l.repository.id].id == l.repository.id
              && reg.repositories[l.repository.id].installationID == l.repository.installationID
              && done.world.log == (if reg.installs[l.repository.installationID].owner != ""
                                    then AppendRepositoriesEvent(s.world.log, reg, s.world.now,
                                                                 reg.installs[l.repository.installationID],
                                                                 reg.repositories[l.repository.id])
                                    else s.world.log)
              && s' == WithRepository(s, reg, l.repository.id, l.found, s.world.mutations + 1).(world := done.world)
              && done.world == s.world.(registry := reg, log := done.world.log, mutations := s.world.mutations + 1)
            else s' == s
  {
    hide GitRefs; hide NameTaken; hide RepoName; hide ValidPathComponent; hide AppendRepositoriesEvent;
  }

  function WithRepository(s: State, reg: Registry, id: int, found: Refs, mutations: nat): State {
    s.(world := s.world.(registry := reg, mutations := mutations),
       git := s.git[id := found], initial := s.initial[id := Base(0, 0, Reading(found))],
           lastHeld := s.lastHeld[id := found])
  }

  lemma RepositoryAdded(c: Casing, s: State, reg: Registry, id: int, found: Refs, mutations: nat)
    requires Invariant(c, s) && RegistryOk(c, reg) && Grows(s.world.registry, reg) && GitRefs(found)
    requires id !in s.world.registry.repositories && reg.repositories.Keys == s.world.registry.repositories.Keys + {id}
    ensures Invariant(c, WithRepository(s, reg, id, found, mutations))
  {
    RegistryGrewWorld(c, s, reg);
    assert id !in s.packs && id !in s.git;
    RepositoryAddedHistory(s, reg, id, found);
    RepositoryAddedPulls(s, id, found);
    RepositoryAddedRefs(s, reg, id, found);
  }

  lemma RepositoryAddedRefs(s: State, reg: Registry, id: int, found: Refs)
    requires GitOk(s) && GitRefs(found) && id !in s.world.registry.repositories
    requires reg.repositories.Keys == s.world.registry.repositories.Keys + {id}
    ensures RefsOk(reg, s.git[id := found], s.initial[id := Base(0, 0, Reading(found))], s.lastHeld[id := found])
    ensures DraftOk(reg, s.world.pulls, s.world.errors, s.git[id := found], s.lastHeld[id := found], s.packs,
                    s.drafting)
  {
    hide HistoryOk; hide PullsOk; hide RefreshesOk; hide GitRefs; hide Reading; hide SideOk; hide DraftLive;
  }

  lemma RepositoryAddedHistory(s: State, reg: Registry, id: int, found: Refs)
    requires HistoryOk(s.world.log.events, s.world.errors, s.git, s.initial, s.packs) && id !in s.packs && id !in s.git
    requires AddressesOk(s.world.registry, s.world.log) && id !in s.world.registry.repositories
    ensures HistoryOk(s.world.log.events, s.world.errors, s.git[id := found],
                      s.initial[id := Base(0, 0, Reading(found))], s.packs)
  {
    NoPushes(s.world.registry, s.world.log.events, id, Reading(found));
    var initial := s.initial[id := Base(0, 0, Reading(found))];
    forall repo | repo in s.git[id := found] && repo in initial
        && CleanSince(s.world.errors, initial[repo].errors, repo)
      ensures Tracked(s.world.log.events, repo, initial[repo], s.git[id := found][repo], PackOf(s.packs, repo))
    {
      if repo != id {
        assert Tracked(s.world.log.events, repo, s.initial[repo], s.git[repo], PackOf(s.packs, repo));
      }
    }
  }

  // A repository yet to be registered has no events.
  lemma {:induction false} NoPushes(reg: Registry, events: seq<Event>, repo: int, refs: Refs)
    requires repo !in reg.repositories && forall k :: 0 <= k < |events| ==> AddressOk(reg, events[k])
    ensures Replay(events, repo, Base(0, 0, refs)) == refs && Faithful(events, repo, Base(0, 0, refs))
  {
    if events != [] {
      NoPushes(reg, events[..|events| - 1], repo, refs);
      assert AddressOk(reg, events[|events| - 1]);
    }
  }

  lemma RepositoryAddedPulls(s: State, id: int, found: Refs)
    requires GitOk(s) && id !in s.git
    ensures PullsOk(s.world.pulls, s.world.errors, s.git[id := found], s.lastHeld[id := found], s.packs)
    ensures RefreshesOk(s.world.pulls, s.git[id := found], s.packs)
  {
    forall key | key in s.world.pulls
      ensures key.repositoryID in s.git && key.repositoryID != id
    {
    }
    forall repo | repo in s.packs ensures RefreshOk(s.world.pulls, s.git[id := found][repo], repo, s.packs[repo]) {
      assert RefreshOk(s.world.pulls, s.git[repo], repo, s.packs[repo]);
    }
  }

  lemma OpenPullKeeps(c: Casing, s: State, input: PullInput)
    requires Invariant(c, s) && s.drafting.None?
    ensures Invariant(c, ControlStep(c, s, OpenPull(input)))
  {
    var s' := ControlStep(c, s, OpenPull(input));
    if CheckPull(s.world, input) == 0 {
      var d := DraftOf(input, s.git[input.repositoryID]);
      assert s'.drafting == Some(d);
      if d.baseSHA != "" {
        assert HeldOk(s.git[input.repositoryID], s.lastHeld[input.repositoryID]);
      }
    }
  }

  lemma ClosePullKeeps(c: Casing, s: State)
    requires Invariant(c, s) && s.drafting.Some?
    ensures Invariant(c, ControlStep(c, s, ClosePull))
  {
    hide WorldOk; hide GitOk;
    ClosePullKeepsGit(s);
    ClosePullKeepsWorld(c, s);
  }

  lemma ClosePullKeepsGit(s: State)
    requires GitOk(s) && s.drafting.Some?
    ensures GitOk(s.(world := FinishPull(s.world, s.drafting.value, GitOf(s, s.drafting.value.key.repositoryID)).world,
                     drafting := None))
  {
    var d := s.drafting.value;
    var done := FinishPull(s.world, d, GitOf(s, d.key.repositoryID));
    DraftedGit(s);
    if done.status == 201 {
      PullAddedKeepsPulls(s);
      DraftedSides(s);
      PullAddedKeepsRefreshes(s, d.key, done.world.pulls[d.key]);
      hide GitOk; hide PullsOk; hide RefreshesOk; hide LiveSides;
      PullsReplaced(s, done.world.pulls, done.world.mutations);
    } else {
      hide GitOk;
      PullsReplaced(s, s.world.pulls, s.world.mutations);
    }
  }

  lemma DraftedGit(s: State)
    requires GitOk(s) && s.drafting.Some?
    ensures s.drafting.value.key.repositoryID in s.git && s.drafting.value.key !in s.world.pulls
    ensures GitOf(s, s.drafting.value.key.repositoryID) == s.git[s.drafting.value.key.repositoryID]
    ensures PullsOk(s.world.pulls, s.world.errors, s.git, s.lastHeld, s.packs)
            && RefreshesOk(s.world.pulls, s.git, s.packs)
  {
    hide HistoryOk; hide RefsOk; hide PullsOk; hide RefreshesOk; hide DraftLive; hide SideOk;
  }

  // What a draft stores while a refresh is under way is live.
  lemma DraftedSides(s: State)
    requires GitOk(s) && s.drafting.Some?
    requires FinishPull(s.world, s.drafting.value, GitOf(s, s.drafting.value.key.repositoryID)).status == 201
    ensures var d := s.drafting.value;
            var repo := d.key.repositoryID;
            repo in s.packs && MidRefresh(s.packs[repo]) && repo in s.git ==>
              LiveSides(s.git[repo], FinishPull(s.world, d, GitOf(s, repo)).world.pulls[d.key])
  {
    hide HistoryOk; hide RefsOk; hide PullsOk; hide RefreshesOk; hide SideOk;
  }

  lemma PullsReplaced(s: State, pulls: map<PullKey, Pull>, mutations: nat)
    requires GitOk(s) && PullsOk(pulls, s.world.errors, s.git, s.lastHeld, s.packs)
             && RefreshesOk(pulls, s.git, s.packs)
    ensures GitOk(s.(world := s.world.(pulls := pulls, mutations := mutations), drafting := None))
  {
    hide HistoryOk; hide RefsOk; hide PullsOk; hide RefreshesOk; hide DraftLive; hide SideOk;
  }

  lemma ClosePullKeepsWorld(c: Casing, s: State)
    requires WorldOk(c, s)
    ensures WorldOk(c, ControlStep(c, s, ClosePull))
  {
    hide RegistryOk; hide TokensOk; hide PushersOk; hide LogOk; hide CiOk; hide ExecutorsOk; hide SignalsOk;
    hide DeliveriesOk; hide SettledOk;
  }

  lemma PullAddedKeepsPulls(s: State)
    requires GitOk(s) && s.drafting.Some?
    requires FinishPull(s.world, s.drafting.value, GitOf(s, s.drafting.value.key.repositoryID)).status == 201
    ensures PullsOk(FinishPull(s.world, s.drafting.value, GitOf(s, s.drafting.value.key.repositoryID)).world.pulls,
                    s.world.errors, s.git, s.lastHeld, s.packs)
  {
    var d := s.drafting.value;
    assert HeldOk(s.git[d.key.repositoryID], s.lastHeld[d.key.repositoryID]);
  }

  lemma PullAddedKeepsRefreshes(s: State, key: PullKey, pull: Pull)
    requires RefreshesOk(s.world.pulls, s.git, s.packs) && key !in s.world.pulls
    requires key.repositoryID in s.packs && MidRefresh(s.packs[key.repositoryID]) && key.repositoryID in s.git ==>
               LiveSides(s.git[key.repositoryID], pull)
    ensures RefreshesOk(s.world.pulls[key := pull], s.git, s.packs)
  {
    forall repo | repo in s.packs ensures RefreshOk(s.world.pulls[key := pull], s.git[repo], repo, s.packs[repo]) {
      assert RefreshOk(s.world.pulls, s.git[repo], repo, s.packs[repo]);
    }
  }

  lemma SetPullStateKeeps(c: Casing, s: State, key: PullKey, state: string)
    requires Invariant(c, s) && s.drafting.None?
    ensures Invariant(c, s.(world := ChangePullState(s.world, key, state).world))
  {
    var done := ChangePullState(s.world, key, state);
    if done.status == 200 {
      PullStateKeepsRefreshes(s, key, state);
      PullStateKeepsPulls(s, key, state);
    }
  }

  lemma PullStateKeepsRefreshes(s: State, key: PullKey, state: string)
    requires RefreshesOk(s.world.pulls, s.git, s.packs) && key in s.world.pulls
    ensures RefreshesOk(s.world.pulls[key := s.world.pulls[key].(state := state)], s.git, s.packs)
  {
    var pulls := s.world.pulls[key := s.world.pulls[key].(state := state)];
    forall repo | repo in s.packs ensures RefreshOk(pulls, s.git[repo], repo, s.packs[repo]) {
      assert RefreshOk(s.world.pulls, s.git[repo], repo, s.packs[repo]);
    }
  }

  lemma PullStateKeepsPulls(s: State, key: PullKey, state: string)
    requires PullsOk(s.world.pulls, s.world.errors, s.git, s.lastHeld, s.packs) && key in s.world.pulls
    ensures PullsOk(s.world.pulls[key := s.world.pulls[key].(state := state)], s.world.errors, s.git, s.lastHeld,
                    s.packs)
  {
  }

  lemma AdvanceKeeps(c: Casing, s: State, duration: Option<int>)
    requires Invariant(c, s)
    ensures Invariant(c, s.(world := AdvanceTime(s.world, duration).world))
  {
    LaterKeeps(s.world, AdvanceTime(s.world, duration).world.now);
    hide RegistryOk; hide TokensOk; hide PushersOk; hide LogOk; hide CiOk; hide ExecutorsOk; hide SignalsOk;
    hide DeliveriesOk; hide SettledOk;
    hide RefsOk; hide HistoryOk; hide PullsOk; hide RefreshesOk; hide DraftOk;
  }

  // Nothing about tokens or events is lost as time passes.
  lemma LaterKeeps(w: World, now: int)
    requires w.now <= now && TokensOk(w.registry, w.tokens, w.now) && LogOk(w.registry, w.log, w.now)
    ensures TokensOk(w.registry, w.tokens, now) && LogOk(w.registry, w.log, now)
  {
    hide TokenOk; hide DenseOk; hide OriginsOk; hide AddressesOk;
  }

  lemma AddAppKeeps(c: Casing, s: State, app: App, keyOk: bool)
    requires Invariant(c, s)
    ensures Invariant(c, s.(world := CreateApp(s.world, app, keyOk).world))
  {
    InvariantRegistry(c, s);
    hide Invariant; hide RegistryOk; hide Grows;
    if CreateApp(s.world, app, keyOk).status == 201 {
      CreateAppKeepsRegistry(c, s.world, app, keyOk);
      RegistryGrew(c, s, CreateApp(s.world, app, keyOk).world.registry, s.world.mutations + 1);
    }
  }

  lemma ConfiguredIs(c: Casing, w: World, repo: int, workflow: Workflow, refOk: bool)
    ensures var done := ConfigureWorkflow(w, repo, workflow, refOk);
            if done.status == 201 then
              done.world == w.(registry := done.world.registry, mutations := w.mutations + 1)
                  && done.world.registry.repositories == w.registry.repositories
            else done.world == w
  {
  }

  lemma ConfigureKeeps(c: Casing, s: State, repo: int, workflow: Workflow, refOk: bool)
    requires Invariant(c, s)
    ensures Invariant(c, s.(world := ConfigureWorkflow(s.world, repo, workflow, refOk).world))
  {
    InvariantRegistry(c, s);
    ConfiguredIs(c, s.world, repo, workflow, refOk);
    hide Invariant; hide RegistryOk; hide Grows; hide ConfigureWorkflow;
    if ConfigureWorkflow(s.world, repo, workflow, refOk).status == 201 {
      ConfigureKeepsRegistry(c, s.world, repo, workflow, refOk);
      RegistryGrew(c, s, ConfigureWorkflow(s.world, repo, workflow, refOk).world.registry, s.world.mutations + 1);
    }
  }

  lemma ControlKeeps(c: Casing, s: State, l: ControlLabel)
    requires Invariant(c, s) && (s.drafting.Some? ==> l.ClosePull?)
    ensures Invariant(c, ControlStep(c, s, l))
  {
    hide CreateApp; hide CreateInstallation; hide FinishPull; hide ChangePullState; hide AdvanceTime;
    hide ConfigureWorkflow; hide CheckPull;
    match l
    case AddApp(app, keyOk) => AddAppKeeps(c, s, app, keyOk);
    case AddInstallation(input) => AddInstallationKeeps(c, s, input);
    case AddRepository(_, _, _, _) => AddRepositoryKeeps(c, s, l);
    case OpenPull(input) => OpenPullKeeps(c, s, input);
    case ClosePull => if s.drafting.Some? { ClosePullKeeps(c, s); }
    case SetPullState(key, state) => SetPullStateKeeps(c, s, key, state);
    case Advance(duration) => AdvanceKeeps(c, s, duration);
    case Configure(repo, workflow, refOk) => ConfigureKeeps(c, s, repo, workflow, refOk);
    case Unsupport(verb, path) => UnsupportKeeps(c, s, verb, path);
  }

  lemma UnsupportKeeps(c: Casing, s: State, verb: string, path: string)
    requires Invariant(c, s)
    ensures Invariant(c, s.(world := RecordUnsupported(s.world, verb, path)))
  {
    hide RegistryOk; hide TokensOk; hide PushersOk; hide LogOk; hide CiOk; hide ExecutorsOk; hide SignalsOk;
    hide DeliveriesOk; hide SettledOk;
    hide RefsOk; hide HistoryOk; hide PullsOk; hide RefreshesOk; hide DraftOk;
  }
}
