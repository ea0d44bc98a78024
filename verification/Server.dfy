/** The world as the source keeps it: one record of maps and lists that each locked region
    updates in place. Every method is one region, proved to do what its region function says
    of the immutable value `View()`. */
module Server {
  import opened Text
  import opened RefListing
  import opened Model
  import opened EventLog
  import opened ControlRegions
  import opened PublicRegions
  import opened RunRegions
  import opened ReceiveRegions
  import opened RegistryProofs

  lemma SomeID(s: set<int>)
    ensures s == {} || exists id :: id in s
  {
    if forall id :: id !in s {
      assert s == {};
    }
  }

  /** A Go set of repository ids: a reference, so records that hold it share its growth. */
  class RepositorySet {
    var ids: set<int>

    constructor ()
      ensures ids == {}
    {
      ids := {};
    }

    method Add(id: int)
      modifies this
      ensures ids == old(ids) + {id}
    {
      ids := ids + {id};
    }

    // copySet
    method Copy() returns (copy: RepositorySet)
      ensures fresh(copy) && copy.ids == ids
    {
      copy := new RepositorySet();
      var rest: set<int> := ids;
      while rest != {}
        invariant rest <= ids && copy.ids == ids - rest && fresh(copy)
        decreases rest
      {
        SomeID(rest);
        var id :| id in rest;
        copy.Add(id);
        rest := rest - {id};
      }
    }
  }

  datatype InstallationRecord = InstallationRecord(
    id: int, appID: int, active: bool, owner: string, ownerType: string,
    permissions: map<string, string>, repositoryIDs: RepositorySet)

  datatype TokenRecord = TokenRecord(
    value: string, installationID: int, repositoryIDs: RepositorySet,
    permissions: map<string, string>, expiresAt: int)

  ghost function InstallSets(installs: map<int, InstallationRecord>): set<RepositorySet> {
    set i | i in installs :: installs[i].repositoryIDs
  }

  ghost function TokenSets(tokens: map<string, TokenRecord>): set<RepositorySet> {
    set v | v in tokens :: tokens[v].repositoryIDs
  }

  function InstallationView(i: InstallationRecord): Installation
    reads i.repositoryIDs`ids
  {
    Installation(i.id, i.appID, i.active, i.owner, i.ownerType, i.permissions, i.repositoryIDs.ids)
  }

  function TokenView(t: TokenRecord): Token
    reads t.repositoryIDs`ids
  {
    Token(t.value, t.installationID, t.repositoryIDs.ids, t.permissions, t.expiresAt)
  }

  function InstallsView(installs: map<int, InstallationRecord>): map<int, Installation>
    reads InstallSets(installs)`ids
  {
    map i | i in installs :: InstallationView(installs[i])
  }

  function TokensView(tokens: map<string, TokenRecord>): map<string, Token>
    reads TokenSets(tokens)`ids
  {
    map v | v in tokens :: TokenView(tokens[v])
  }

  // No two installations share a set, and no token shares its set with an installation.
  ghost predicate Separate(installs: map<int, InstallationRecord>, tokens: map<string, TokenRecord>) {
    && (forall i, j :: i in installs && j in installs && i != j ==>
          installs[i].repositoryIDs != installs[j].repositoryIDs)
    && (forall i, v :: i in installs && v in tokens ==> installs[i].repositoryIDs != tokens[v].repositoryIDs)
  }

  lemma InstallationFiled(installs: map<int, InstallationRecord>, tokens: map<string, TokenRecord>, id: int,
                          i: InstallationRecord)
    requires Separate(installs, tokens) && id !in installs
    requires forall j :: j in installs ==> installs[j].repositoryIDs != i.repositoryIDs
    requires forall v :: v in tokens ==> tokens[v].repositoryIDs != i.repositoryIDs
    ensures InstallsView(installs[id := i]) == InstallsView(installs)[id := InstallationView(i)]
    ensures Separate(installs[id := i], tokens)
  {
  }

  lemma TokenFiled(installs: map<int, InstallationRecord>, tokens: map<string, TokenRecord>, value: string,
                   t: TokenRecord)
    requires Separate(installs, tokens)
    requires forall i :: i in installs ==> installs[i].repositoryIDs != t.repositoryIDs
    ensures TokensView(tokens[value := t]) == TokensView(tokens)[value := TokenView(t)]
    ensures Separate(installs, tokens[value := t])
  {
  }

  lemma NextRef(s: Recorded, p: Push, refs: seq<string>, k: nat)
    requires k < |refs|
    ensures RecordRefs(s, p, refs, k + 1) == RecordRef(RecordRefs(s, p, refs, k), p, refs[k])
    ensures !p.Moves(refs[k]) ==> RecordRefs(s, p, refs, k + 1) == RecordRefs(s, p, refs, k)
  {
  }

  lemma SelectedStart(c: Casing, reg: Registry, granted: set<int>, ids: seq<int>)
    requires forall k :: 0 <= k < |ids| ==> ids[k] in granted
    ensures Selected(c, reg, granted, ids, []) == (set id | id in ids) && Selectable(c, reg, granted, ids, [])
  {
  }

  lemma UnknownID(c: Casing, reg: Registry, granted: set<int>, ids: seq<int>, names: seq<string>)
    requires exists k :: 0 <= k < |ids| && ids[k] !in granted
    ensures !Selectable(c, reg, granted, ids, names)
  {
  }

  // One name more selects exactly the one granted repository it matches.
  lemma SelectedNext(c: Casing, reg: Registry, installationID: int, ids: seq<int>, names: seq<string>, name: string,
                     id: int)
    requires RegistryOk(c, reg) && installationID in reg.installs
    requires Selectable(c, reg, reg.installs[installationID].repositoryIDs, ids, names)
    requires id in reg.installs[installationID].repositoryIDs && Matches(c, reg, id, name)
    ensures var granted := reg.installs[installationID].repositoryIDs;
            && Selectable(c, reg, granted, ids, names + [name])
            && Selected(c, reg, granted, ids, names + [name]) == Selected(c, reg, granted, ids, names) + {id}
  {
    var granted := reg.installs[installationID].repositoryIDs;
    forall other | other in granted && Matches(c, reg, other, name) ensures other == id {
      MatchIsUnique(c, reg, installationID, name, other, id);
    }
    hide RegistryOk; hide Matches;
    assert (names + [name])[|names|] == name;
    forall other | other in granted
      ensures other in Selected(c, reg, granted, ids, names + [name])
              <==> other in Selected(c, reg, granted, ids, names) + {id}
    {
      if k :| 0 <= k < |names| && Matches(c, reg, other, names[k]) {
        assert (names + [name])[k] == names[k];
      }
    }
  }

  // copyMap
  method CopyMap(input: map<string, string>) returns (result: map<string, string>)
    ensures result == input
  {
    result := map[];
    var rest := input.Keys;
    while rest != {}
      invariant rest <= input.Keys && result.Keys == input.Keys - rest
      invariant forall key :: key in result ==> result[key] == input[key]
      decreases rest
    {
      var key :| key in rest;
      result := result[key := input[key]];
      rest := rest - {key};
    }
  }

  // The permission check of createInstallation, in whatever order the map is ranged over.
  method CheckPermissions(permissions: map<string, string>) returns (ok: bool)
    ensures ok == PermissionsValid(permissions)
  {
    var rest := permissions.Keys;
    while rest != {}
      invariant rest <= permissions.Keys
      invariant forall p :: p in permissions && p !in rest ==> p != "" && PermissionRank(permissions[p]) != 0
      decreases rest
    {
      var p :| p in rest;
      if p == "" || PermissionRank(permissions[p]) == 0 {
        return false;
      }
      rest := rest - {p};
    }
    return true;
  }

  method NarrowPermissions(granted: map<string, string>, requested: Option<map<string, string>>)
    returns (permissions: Option<map<string, string>>)
    ensures permissions == SelectPermissions(granted, requested)
  {
    if requested.None? {
      var all := CopyMap(granted);
      return Some(all);
    }
    var wanted := requested.value;
    var rest := wanted.Keys;
    while rest != {}
      invariant rest <= wanted.Keys
      invariant forall p :: p in wanted && p !in rest ==>
                  p in granted && PermissionRank(wanted[p]) != 0
                      && PermissionRank(wanted[p]) <= PermissionRank(granted[p])
      decreases rest
    {
      var p :| p in rest;
      if p !in granted || PermissionRank(wanted[p]) == 0 || PermissionRank(wanted[p]) > PermissionRank(granted[p]) {
        return None;
      }
      rest := rest - {p};
    }
    return requested;
  }

  // The refs of two snapshots in sorted order: both key sets ranged over, collected and sorted.
  method CollectRefs(before: Refs, after: Refs) returns (refs: seq<string>)
    ensures refs == SortedKeys(before.Keys + after.Keys)
  {
    refs := [];
    var rest := before.Keys + after.Keys;
    while rest != {}
      invariant rest <= before.Keys + after.Keys && Elements(refs) == before.Keys + after.Keys - rest
      invariant forall i, j :: 0 <= i < j < |refs| ==> refs[i] != refs[j]
      decreases rest
    {
      var ref :| ref in rest;
      assert ref !in Elements(refs);
      assert Elements(refs + [ref]) == Elements(refs) + {ref};
      refs := refs + [ref];
      rest := rest - {ref};
    }
    refs := SortStrings(refs);
    SortedUnique(refs, SortedKeys(before.Keys + after.Keys));
  }

  class Server {
    const casing: Casing
    var now: int
    var apps: map<int, App>
    var installs: map<int, InstallationRecord>
    var repositories: map<int, Repository>
    var repoNames: map<string, int>
    var receiveLocks: set<int>
    var workflows: map<int, Workflow>
    var tokens: map<string, TokenRecord>
    var pulls: map<PullKey, Pull>
    var workflowRuns: seq<Run>
    var activeRuns: map<int, ActiveRun>
    var nextRunID: int
    var pendingEvents: seq<Event>
    var nextEventID: nat
    var observationErrors: seq<ObservationError>
    var deliveryAttempts: seq<Attempt>
    var unsupported: seq<Unsupported>
    var mutations: nat

    function RegistryView(): Registry
      reads this, InstallSets(installs)`ids
    {
      Registry(apps, InstallsView(installs), repositories, repoNames, receiveLocks, workflows)
    }

    function CiView(): Ci
      reads this
    {
      Ci(workflowRuns, activeRuns, nextRunID)
    }

    function LogView(): Log
      reads this
    {
      Log(pendingEvents, nextEventID)
    }

    function View(): World
      reads this, InstallSets(installs)`ids, TokenSets(tokens)`ids
    {
      World(now, RegistryView(), TokensView(tokens), pulls, CiView(), LogView(),
            observationErrors, deliveryAttempts, unsupported, mutations)
    }

    ghost predicate Valid()
      reads this, InstallSets(installs)`ids, TokenSets(tokens)`ids
    {
      Separate(installs, tokens) && RegistryOk(casing, RegistryView())
    }

    twostate lemma SetsKept()
      requires installs == old(installs) && tokens == old(tokens)
      requires forall i :: i in installs ==> installs[i].repositoryIDs.ids == old(installs[i].repositoryIDs.ids)
      requires forall v :: v in tokens ==> tokens[v].repositoryIDs.ids == old(tokens[v].repositoryIDs.ids)
      ensures InstallsView(installs) == old(InstallsView(installs)) && TokensView(tokens) == old(TokensView(tokens))
    {
      var i0, t0 := old(InstallsView(installs)), old(TokensView(tokens));
      assert InstallsView(installs).Keys == i0.Keys && TokensView(tokens).Keys == t0.Keys;
      assert forall i :: i in i0 ==> InstallsView(installs)[i] == i0[i];
      assert forall v :: v in t0 ==> TokensView(tokens)[v] == t0[v];
    }

    lemma RunsShown()
      ensures View().ci.runs == workflowRuns
    {
    }

    constructor (casing: Casing, now: int)
      ensures Valid() && View() == EmptyWorld(now) && this.casing == casing && InstallSets(installs) == {}
    {
      this.casing := casing;
      this.now := now;
      apps, installs, repositories, repoNames, receiveLocks, workflows := map[], map[], map[], map[], {}, map[];
      tokens, pulls := map[], map[];
      workflowRuns, activeRuns, nextRunID := [], map[], 1000;
      pendingEvents, nextEventID := [], 0;
      observationErrors, deliveryAttempts, unsupported, mutations := [], [], [], 0;
    }

    method CreateApp(app: App, keyOk: bool) returns (status: int)
      requires Valid()
      modifies `apps, `mutations
      ensures status != 201 ==> View() == old(View())
      ensures Valid() && Outcome(View(), status) == old(ControlRegions.CreateApp(View(), app, keyOk))
    {
      CreateAppKeepsRegistry(casing, View(), app, keyOk);
      hide RegistryOk; hide Separate; hide InstallsView; hide TokensView;
      if !keyOk {
        return 400;
      }
      if app.id <= 0 || (app.id in apps && apps[app.id].id != 0) {
        return 409;
      }
      StoreApp(app);
      return 201;
    }

    method StoreApp(app: App)
      modifies `apps, `mutations
      ensures View() == old(View().(registry := RegistryView().(apps := apps[app.id := app]),
                                    mutations := mutations + 1))
    {
      hide InstallsView; hide TokensView;
      apps := apps[app.id := app];
      mutations := mutations + 1;
      SetsKept();
    }

    method AppendPendingAppEvent(kind: string, action: string, appID: int, repositoryID: int, body: Body)
      modifies `pendingEvents, `nextEventID
      ensures View() == old(View().(log := AppendAppEvent(LogView(), now, kind, action, appID, repositoryID, body)))
    {
      hide InstallsView; hide TokensView; hide Guid;
      nextEventID := nextEventID + 1;
      pendingEvents := pendingEvents
          + [Event(Guid(nextEventID), kind, action, appID, repositoryID, now, body, |pendingEvents|)];
      SetsKept();
    }

    method AppendPendingEvent(kind: string, action: string, repositoryID: int, body: Body)
      modifies `pendingEvents, `nextEventID
      ensures View() == old(View().(log :=
                                    AppendEvent(LogView(), RegistryView(), now, kind, action, repositoryID, body)))
    {
      hide AppendAppEvent;
      var installationID := if repositoryID in repositories then repositories[repositoryID].installationID else 0;
      var appID := if installationID in installs then installs[installationID].appID else 0;
      AppendPendingAppEvent(kind, action, appID, repositoryID, body);
    }

    method AppendWorkflowEvent(repository: Repository, run: Run, action: string)
      modifies `pendingEvents, `nextEventID
      ensures View() == old(View().(log := AppendRunEvent(LogView(), RegistryView(), now, repository, run, action)))
    {
      hide AppendEvent; hide InstallsView; hide TokensView;
      AppendPendingEvent("workflow_run", action, repository.id, RunBodyOf(repository, run, action));
    }

    method AppendPushEvent(repository: Repository, appID: int, ref: string, before: string, after: string, forced: bool)
      modifies `pendingEvents, `nextEventID
      ensures View() == old(View().(log :=
                                    EventLog.AppendPushEvent(LogView(), RegistryView(), now, repository, appID, ref,
                                                             before, after, forced)))
    {
      hide AppendEvent; hide InstallsView; hide TokensView;
      AppendPendingEvent("push", "", repository.id, PushBodyOf(repository, appID, ref, before, after, forced));
    }

    method AppendQueuedWorkflow(repository: Repository, workflow: Workflow, ref: string, sha: string)
      modifies `pendingEvents, `nextEventID, `workflowRuns, `nextRunID
      ensures var r := old(ReceiveRegions.AppendQueuedWorkflow(Recorded(LogView(), CiView()), RegistryView(), now,
                                                               repository, workflow, ref, sha));
              View() == old(View()).(log := r.log, ci := r.ci)
    {
      hide AppendRunEvent; hide InstallsView; hide TokensView;
      nextRunID := nextRunID + 1;
      var run := Run(nextRunID, 1, repository.id, workflow.id, workflow.name, workflow.path, "push", ref, sha, Queued,
                     "", false, "");
      workflowRuns := workflowRuns + [run];
      SetsKept();
      AppendWorkflowEvent(repository, run, "requested");
    }

    // appendInstallationRepositoriesEvent, counted with the registration it announces.
    method AnnounceRepository(input: RepositoryInput)
      requires input.installationID in installs && input.id in repositories
      modifies `pendingEvents, `nextEventID, `mutations
      ensures var reg := old(RegistryView());
              var i := reg.installs[input.installationID];
              View() == old(View()).(log := if i.owner != ""
                                     then AppendRepositoriesEvent(old(LogView()), reg, now, i,
                                                                  reg.repositories[input.id])
                                            else old(LogView()),
                                     mutations := old(mutations) + 1)
    {
      var i, r := installs[input.installationID], repositories[input.id];
      assert RegistryView().installs[input.installationID] == InstallationView(i);
      hide InstallsView; hide TokensView; hide AppendEvent;
      if i.owner != "" {
        AppendPendingEvent("installation_repositories", "added", r.id,
                           RepositoriesBody("added", i.id, i.owner, i.ownerType, EventRepositoryOf(r), i.appID));
      }
      mutations := mutations + 1;
      SetsKept();
    }

    // The checks createInstallation makes before it takes the lock.
    method CheckInstallation(input: InstallationInput) returns (ok: bool, ownerType: string)
      ensures ok == (PermissionsValid(input.permissions) && OwnerValid(input))
      ensures ok ==> ownerType == OwnerTypeOf(input)
    {
      ownerType := input.ownerType;
      ok := CheckPermissions(input.permissions);
      if ok && input.owner != "" {
        if !ValidPathComponent(input.owner) {
          return false, ownerType;
        }
        if ownerType == "" {
          ownerType := "User";
        }
        if ownerType != "User" && ownerType != "Organization" {
          return false, ownerType;
        }
      }
    }

    method CreateInstallation(input: InstallationInput) returns (status: int)
      requires Valid()
      modifies `installs, `pendingEvents, `nextEventID, `mutations
      ensures fresh(InstallSets(installs) - old(InstallSets(installs)))
      ensures status != 201 ==> View() == old(View())
      ensures Valid() && Outcome(View(), status) == old(ControlRegions.CreateInstallation(View(), input))
    {
      CreateInstallationKeepsRegistry(casing, View(), input);
      AccountsFact(casing, RegistryView());
      hide RegistryOk; hide PermissionsValid; hide OwnerValid; hide Guid; hide OwnerTypeOf; hide Separate;
      hide InstallsView; hide TokensView; hide AppendAppEvent;
      var ok, ownerType := CheckInstallation(input);
      SetsKept();
      if !ok {
        return 400;
      }
      if input.id <= 0 || (input.id in installs && installs[input.id].id != 0) {
        return 409;
      }
      if input.appID !in apps {
        return 400;
      }
      AddInstallation(input, ownerType);
      return 201;
    }

    method AddInstallation(input: InstallationInput, ownerType: string)
      requires Separate(installs, tokens) && input.id !in installs
      modifies `installs, `pendingEvents, `nextEventID, `mutations
      ensures fresh(InstallSets(installs) - old(InstallSets(installs))) && Separate(installs, tokens)
      ensures var i := Installation(input.id, input.appID, input.active, input.owner, ownerType, input.permissions, {});
              View() == old(View()).(registry :=
                                     old(RegistryView()).(installs := old(InstallsView(installs))[input.id := i]),
                                     log := if i.owner != "" then AppendInstallationEvent(old(LogView()), now, i)
                                         else old(LogView()),
                                     mutations := old(mutations) + 1)
    {
      hide Separate; hide InstallsView; hide TokensView; hide AppendInstallationEvent;
      FileInstallation(input, ownerType);
      AnnounceInstallation(Installation(input.id, input.appID, input.active, input.owner, ownerType, input.permissions,
                                        {}));
    }

    method AnnounceInstallation(i: Installation)
      modifies `pendingEvents, `nextEventID, `mutations
      ensures View() == old(View().(log := if i.owner != "" then AppendInstallationEvent(LogView(), now, i)
                                    else LogView(),
                                    mutations := mutations + 1))
    {
      hide InstallsView; hide TokensView; hide AppendAppEvent;
      if i.owner != "" {
        AppendPendingAppEvent("installation", "created", i.appID, 0,
                              InstallationBody("created", i.id, i.owner, i.ownerType, i.permissions, i.appID));
      }
      mutations := mutations + 1;
      SetsKept();
    }

    method FileInstallation(input: InstallationInput, ownerType: string)
      requires Separate(installs, tokens) && input.id !in installs
      modifies `installs
      ensures fresh(InstallSets(installs) - old(InstallSets(installs)))
      ensures Separate(installs, tokens) && TokensView(tokens) == old(TokensView(tokens))
      ensures InstallsView(installs)
              == old(InstallsView(installs))[input.id :=
                                             Installation(input.id, input.appID, input.active, input.owner, ownerType,
                                                          input.permissions, {})]
    {
      hide InstallsView; hide TokensView; hide Separate;
      var permissions := CopyMap(input.permissions);
      var none := new RepositorySet();
      var i := InstallationRecord(input.id, input.appID, input.active, input.owner, ownerType, permissions, none);
      SetsKept();
      InstallationFiled(installs, tokens, input.id, i);
      installs := installs[input.id := i];
    }

    // createRepository's scan of the installation for a repository of the same folded name.
    method NameIsTaken(i: InstallationRecord, name: string) returns (taken: bool)
      ensures taken == NameTaken(casing, RegistryView(), InstallationView(i), name)
    {
      var rest := i.repositoryIDs.ids;
      while rest != {}
        invariant rest <= i.repositoryIDs.ids
        invariant forall id :: id in i.repositoryIDs.ids && id !in rest ==>
                  !casing.EqualFold(RepositoryOf(RegistryView(), id).name, name)
        decreases rest
      {
        SomeID(rest);
        var id :| id in rest;
        var known := if id in repositories then repositories[id].name else "";
        if casing.EqualFold(known, name) {
          return true;
        }
        rest := rest - {id};
      }
      return false;
    }

    // The set of the installation a repository joins has grown by it; nobody else's has moved.
    twostate lemma OneSetGrew(r: RepositoryInput)
      requires installs == old(installs) && tokens == old(tokens) && r.installationID in installs
      requires installs[r.installationID].repositoryIDs.ids
               == old(installs[r.installationID].repositoryIDs.ids) + {r.id}
      requires forall j :: j in installs && j != r.installationID ==>
                installs[j].repositoryIDs.ids == old(installs[j].repositoryIDs.ids)
      requires forall v :: v in tokens ==> tokens[v].repositoryIDs.ids == old(tokens[v].repositoryIDs.ids)
      ensures var seen := old(InstallsView(installs));
              var i := seen[r.installationID];
              InstallsView(installs) == seen[r.installationID := i.(repositoryIDs := i.repositoryIDs + {r.id})]
      ensures TokensView(tokens) == old(TokensView(tokens))
    {
      var i0, t0 := old(InstallsView(installs)), old(TokensView(tokens));
      assert InstallsView(installs).Keys == i0.Keys && TokensView(tokens).Keys == t0.Keys;
      assert forall j :: j in i0 && j != r.installationID ==> InstallsView(installs)[j] == i0[j];
      assert forall v :: v in t0 ==> TokensView(tokens)[v] == t0[v];
    }

    // The installation's set grows in place. Tokens hold copies, so no issued scope grows with it.
    method RegisterRepository(input: RepositoryInput)
      requires Separate(installs, tokens) && input.installationID in installs
      modifies `repositories, `receiveLocks, `repoNames, InstallSets(installs)
      ensures View() == old(View().(registry := ControlRegions.RegisterRepository(casing, RegistryView(), input)))
    {
      hide InstallsView; hide TokensView; hide RepoName;
      FileRepository(input);
      GrowInstallation(input);
    }

    method FileRepository(input: RepositoryInput)
      modifies `repositories, `receiveLocks, `repoNames
      ensures View() == old(View()).(registry := old(RegistryView()).(
                repositories := old(repositories)[input.id :=
                                                  Repository(input.id, input.owner, input.name, input.installationID)],
                receiveLocks := old(receiveLocks) + {input.id},
                repoNames := old(repoNames)[RepoName(casing, input.owner, input.name) := input.id]))
    {
      hide InstallsView; hide TokensView; hide RepoName;
      repositories := repositories[input.id := Repository(input.id, input.owner, input.name, input.installationID)];
      receiveLocks := receiveLocks + {input.id};
      repoNames := repoNames[RepoName(casing, input.owner, input.name) := input.id];
      SetsKept();
    }

    method GrowInstallation(input: RepositoryInput)
      requires Separate(installs, tokens) && input.installationID in installs
      modifies InstallSets(installs)
      ensures TokensView(tokens) == old(TokensView(tokens))
      ensures var seen := old(InstallsView(installs));
              var i := seen[input.installationID];
              InstallsView(installs) == seen[input.installationID := i.(repositoryIDs := i.repositoryIDs + {input.id})]
    {
      hide InstallsView; hide TokensView;
      installs[input.installationID].repositoryIDs.Add(input.id);
      OneSetGrew(input);
    }

    method AddRepository(input: RepositoryInput)
      requires Separate(installs, tokens) && input.installationID in installs
      modifies `repositories, `receiveLocks, `repoNames, `pendingEvents, `nextEventID, `mutations, InstallSets(installs)
      ensures var reg := ControlRegions.RegisterRepository(casing, old(RegistryView()), input);
              var i := reg.installs[input.installationID];
              View() == old(View()).(registry := reg,
                                     log := if i.owner != "" then AppendRepositoriesEvent(old(LogView()), reg, now, i,
                                         reg.repositories[input.id])
                                            else old(LogView()),
                                     mutations := old(mutations) + 1)
    {
      RegisterRepository(input);
      hide InstallsView; hide TokensView; hide RepoName; hide AppendRepositoriesEvent; hide Separate;
      AnnounceRepository(input);
    }

    // The checks createRepository makes before it prepares the bare repository.
    method CheckRepository(input: RepositoryInput) returns (status: int)
      requires Valid()
      ensures status == 0 <==> Registrable(casing, RegistryView(), input)
      ensures status == 0 || status == 400 || status == 409
      ensures status == 400 <==> !(input.id > 0 && ValidPathComponent(input.owner) && ValidPathComponent(input.name)
                                   && input.installationID in RegistryView().installs)
    {
      InstallationKnown(input.installationID);
      hide RegistryOk; hide Separate; hide ValidPathComponent; hide NameTaken; hide RepoName; hide InstallsView;
      hide TokensView;
      if input.id <= 0 || !ValidPathComponent(input.owner) || !ValidPathComponent(input.name) {
        return 400;
      }
      if input.installationID !in installs {
        return 400;
      }
      if input.id in repositories {
        return 409;
      }
      if RepoName(casing, input.owner, input.name) in repoNames {
        return 409;
      }
      var taken := NameIsTaken(installs[input.installationID], input.name);
      SetsKept();
      return if taken then 409 else 0;
    }

    method CreateRepository(input: RepositoryInput, initOk: bool, configOk: bool) returns (status: int)
      requires Valid()
      modifies `repositories, `receiveLocks, `repoNames, `pendingEvents, `nextEventID, `mutations, InstallSets(installs)
      ensures status != 201 ==> View() == old(View())
      ensures Valid() && Outcome(View(), status)
              == old(ControlRegions.CreateRepository(casing, View(), input, initOk, configOk))
    {
      CreateRepositoryKeepsRegistry(casing, View(), input, initOk, configOk);
      InstallationKnown(input.installationID);
      hide RegistryOk; hide Separate; hide ValidPathComponent; hide NameTaken; hide RepoName; hide InstallsView;
      hide TokensView;
      hide AppendRepositoriesEvent;
      status := CheckRepository(input);
      SetsKept();
      if status != 0 {
        return;
      }
      if !initOk || !configOk {
        return 500;
      }
      AddRepository(input);
      return 201;
    }

    // createPullRequest up to its first ref read.
    method BeginPullRequest(input: PullInput, refs: Refs) returns (status: int, draft: Draft)
      requires Valid()
      ensures Valid() && View() == old(View())
      ensures status == CheckPull(View(), input)
      ensures draft == DraftOf(input, refs)
    {
      var state := if input.state == "" then "open" else input.state;
      var key := PullKey(input.repositoryID, input.number);
      draft := Draft(key, input.baseRef, input.headRef, state, input.draft, Lookup(refs, input.baseRef));
      if input.number <= 0 || input.baseRef == "" || input.headRef == "" || (state != "open" && state != "closed") {
        return 400, draft;
      }
      if input.repositoryID !in repositories {
        return 400, draft;
      }
      if key in pulls {
        return 409, draft;
      }
      return 0, draft;
    }

    // The rest of it, still in the same region.
    method FinishPullRequest(draft: Draft, refs: Refs) returns (status: int)
      requires Valid()
      modifies `pulls, `mutations
      ensures status != 201 ==> View() == old(View())
      ensures Valid() && Outcome(View(), status) == old(FinishPull(View(), draft, refs))
    {
      hide RegistryOk; hide Separate; hide InstallsView; hide TokensView;
      var headSHA := Lookup(refs, draft.headRef);
      if draft.baseSHA == "" || headSHA == "" {
        return 400;
      }
      pulls := pulls[draft.key := Pull(draft.baseRef, draft.headRef, draft.baseSHA, headSHA, draft.state, draft.draft)];
      mutations := mutations + 1;
      SetsKept();
      return 201;
    }

    method ChangePullRequestState(key: PullKey, state: string) returns (status: int)
      requires Valid()
      modifies `pulls, `mutations
      ensures status != 200 ==> View() == old(View())
      ensures Valid() && Outcome(View(), status) == old(ChangePullState(View(), key, state))
    {
      hide RegistryOk; hide Separate; hide InstallsView; hide TokensView;
      if state != "open" && state != "closed" {
        return 400;
      }
      if key !in pulls {
        return 404;
      }
      pulls := pulls[key := pulls[key].(state := state)];
      mutations := mutations + 1;
      SetsKept();
      return 200;
    }

    method AdvanceTime(duration: Option<int>) returns (status: int)
      requires Valid()
      modifies `now, `mutations
      ensures status != 200 ==> View() == old(View())
      ensures Valid() && Outcome(View(), status) == old(ControlRegions.AdvanceTime(View(), duration))
    {
      hide RegistryOk; hide Separate; hide InstallsView; hide TokensView;
      if duration.None? || duration.value < 0 {
        return 400;
      }
      now := now + duration.value;
      mutations := mutations + 1;
      SetsKept();
      return 200;
    }

    method ConfigureWorkflow(repositoryID: int, workflow: Workflow, refOk: bool) returns (status: int)
      requires Valid()
      modifies `workflows, `mutations
      ensures status != 201 ==> View() == old(View())
      ensures Valid() && Outcome(View(), status)
              == old(ControlRegions.ConfigureWorkflow(View(), repositoryID, workflow, refOk))
    {
      ConfigureKeepsRegistry(casing, View(), repositoryID, workflow, refOk);
      hide RegistryOk; hide Separate; hide InstallsView; hide TokensView;
      if workflow.id <= 0 || workflow.name == "" || workflow.path == "" || workflow.releaseRef == "" {
        return 400;
      }
      if !refOk {
        return 400;
      }
      if repositoryID !in repositories {
        return 400;
      }
      StoreWorkflow(repositoryID, workflow);
      return 201;
    }

    method StoreWorkflow(repositoryID: int, workflow: Workflow)
      modifies `workflows, `mutations
      ensures View() == old(View().(registry := RegistryView().(workflows := workflows[repositoryID := workflow]),
                                    mutations := mutations + 1))
    {
      hide InstallsView; hide TokensView;
      workflows := workflows[repositoryID := workflow];
      mutations := mutations + 1;
      SetsKept();
    }

    method GetState() returns (snapshot: Snapshot)
      requires Valid()
      ensures snapshot == ControlRegions.GetState(View())
    {
      snapshot := Snapshot(now, |apps|, |installs|, |repositories|, |pulls|, |tokens|, mutations,
                           pendingEvents, workflowRuns, deliveryAttempts, observationErrors, unsupported);
      var i, t := InstallsView(installs), TokensView(tokens);
      assert i.Keys == installs.Keys && t.Keys == tokens.Keys;
      assert |i.Keys| == |i| && |t.Keys| == |t| && |installs.Keys| == |installs| && |tokens.Keys| == |tokens|;
    }

    method RecordUnsupported(verb: string, path: string)
      requires Valid()
      modifies `unsupported
      ensures Valid() && View() == old(RunRegions.RecordUnsupported(View(), verb, path))
    {
      hide RegistryOk; hide Separate; hide InstallsView; hide TokensView;
      unsupported := unsupported + [Unsupported(verb, path, now)];
      SetsKept();
    }

    method FindPendingEvent(guid: string) returns (index: nat)
      ensures index == FindEvent(pendingEvents, guid)
    {
      index := 0;
      while index < |pendingEvents|
        invariant index <= |pendingEvents| && forall j :: 0 <= j < index ==> pendingEvents[j].guid != guid
      {
        if pendingEvents[index].guid == guid {
          return;
        }
        index := index + 1;
      }
    }

    method WorkflowRunByID(runID: int) returns (index: nat)
      ensures index == FindRun(workflowRuns, runID)
    {
      index := 0;
      while index < |workflowRuns|
        invariant index <= |workflowRuns| && forall j :: 0 <= j < index ==> workflowRuns[j].id != runID
      {
        if workflowRuns[index].id == runID {
          return;
        }
        index := index + 1;
      }
    }

    method DuplicateEvent(guid: string) returns (status: int)
      requires Valid()
      modifies `pendingEvents, `nextEventID, `mutations
      ensures status != 201 ==> View() == old(View())
      ensures Valid() && Outcome(View(), status) == old(RunRegions.DuplicateEvent(View(), guid))
    {
      hide RegistryOk; hide Separate; hide InstallsView; hide TokensView; hide FindEvent; hide Guid;
      var index := FindPendingEvent(guid);
      SetsKept();
      if index == |pendingEvents| {
        return 404;
      }
      nextEventID := nextEventID + 1;
      pendingEvents := pendingEvents + [pendingEvents[index].(guid := Guid(nextEventID), createdAt := now)];
      mutations := mutations + 1;
      SetsKept();
      return 201;
    }

    // The read region of deliverEvent.
    method BeginDelivery(guid: string, invalidSignature: bool) returns (delivery: Option<Delivery>)
      requires Valid()
      ensures Valid() && View() == old(View())
      ensures delivery == ReadDelivery(View(), guid, invalidSignature)
    {
      hide RegistryOk; hide Separate; hide InstallsView; hide TokensView; hide FindEvent;
      var index := FindPendingEvent(guid);
      SetsKept();
      if index == |pendingEvents| {
        return None;
      }
      var event := pendingEvents[index];
      var app := if event.appID in apps then apps[event.appID] else App(0, "", "");
      if app.webhookURL == "" || app.webhookSecret == "" {
        return None;
      }
      return Some(Delivery(event, app, invalidSignature, now));
    }

    // The write region of deliverEvent.
    method FinishDelivery(attempt: Attempt)
      requires Valid()
      modifies `deliveryAttempts, `mutations
      ensures Valid() && View() == old(LogAttempt(View(), attempt))
    {
      hide RegistryOk; hide Separate; hide InstallsView; hide TokensView;
      deliveryAttempts := deliveryAttempts + [attempt];
      mutations := mutations + 1;
      SetsKept();
    }

    // Writing run `index` back, its event appended and the change counted.
    method StoreRun(repository: Repository, index: nat, run: Run, action: string)
      requires index < |workflowRuns|
      modifies `workflowRuns, `pendingEvents, `nextEventID, `mutations
      ensures View() == old(Announce(View(), repository, index, run, activeRuns, action))
    {
      hide InstallsView; hide TokensView; hide AppendRunEvent;
      workflowRuns := workflowRuns[index := run];
      SetsKept();
      AppendWorkflowEvent(repository, run, action);
      mutations := mutations + 1;
      SetsKept();
    }

    method TransitionWorkflowRun(runID: int, wanted: WantedStatus, conclusion: string) returns (status: int)
      requires Valid()
      modifies `workflowRuns, `pendingEvents, `nextEventID, `mutations
      ensures status != 200 ==> View() == old(View())
      ensures Valid() && Outcome(View(), status) == old(TransitionRun(View(), runID, wanted, conclusion))
    {
      hide RegistryOk; hide Separate; hide InstallsView; hide TokensView; hide FindRun; hide AppendRunEvent;
      var index := WorkflowRunByID(runID);
      SetsKept();
      if index == |workflowRuns| {
        return 404;
      }
      if runID in activeRuns {
        return 409;
      }
      var run := workflowRuns[index];
      var action;
      if run.status == Queued && wanted == Wanted(InProgress) && conclusion == "" {
        action := "in_progress";
      } else if (run.status == Queued || run.status == InProgress) && wanted == Wanted(Completed) && conclusion != "" {
        action := "completed";
      } else {
        return 409;
      }
      run := run.(status := wanted.status, conclusion := conclusion);
      var repository := if run.repositoryID in repositories then repositories[run.repositoryID]
          else Repository(0, "", "", 0);
      StoreRun(repository, index, run, action);
      return 200;
    }

    // The claim region of executeWorkflowRun; the index, repository and workflow it captures are
    // what the later regions work with.
    method ClaimRun(runID: int) returns (status: int, index: nat, repository: Repository, workflow: Workflow)
      requires Valid()
      modifies `activeRuns
      ensures status != 0 ==> View() == old(View())
      ensures Valid() && Outcome(View(), status) == old(Claim(View(), runID))
      ensures status == 0 <==> old(CheckClaim(View(), runID)) == 0
      ensures status == 0 ==>
                && index == FindRun(workflowRuns, runID) && index < |workflowRuns|
                && workflowRuns[index].repositoryID in repositories
                && repository == repositories[workflowRuns[index].repositoryID]
                && workflowRuns[index].repositoryID in workflows
                && workflow == workflows[workflowRuns[index].repositoryID]
                && workflowRuns == old(View()).ci.runs && repositories == old(View()).registry.repositories
                && workflows == old(View()).registry.workflows
    {
      hide RegistryOk; hide Separate; hide InstallsView; hide TokensView; hide FindRun;
      repository, workflow := Repository(0, "", "", 0), Workflow(0, "", "", "");
      index := WorkflowRunByID(runID);
      SetsKept();
      if index == |workflowRuns| {
        return 404, index, repository, workflow;
      }
      var run := workflowRuns[index];
      if run.status != Queued {
        return 409, index, repository, workflow;
      }
      if run.id in activeRuns {
        return 409, index, repository, workflow;
      }
      if run.repositoryID !in repositories || run.repositoryID !in workflows {
        return 409, index, repository, workflow;
      }
      activeRuns := activeRuns[run.id := ActiveRun(None, false)];
      SetsKept();
      return 0, index, repositories[run.repositoryID], workflows[run.repositoryID];
    }

    // The deferred release of a claim that was given up.
    method ReleaseClaim(runID: int)
      requires Valid()
      modifies `activeRuns
      ensures Valid() && View() == old(Release(View(), runID))
    {
      hide RegistryOk; hide Separate; hide InstallsView; hide TokensView;
      activeRuns := activeRuns - {runID};
      SetsKept();
    }

    // The start region of executeWorkflowRun.
    method StartRunner(repository: Repository, index: nat, executor: int, startOk: bool) returns (status: int)
      requires Valid() && index < |workflowRuns|
      modifies `workflowRuns, `activeRuns, `pendingEvents, `nextEventID, `mutations
      ensures Valid() && Outcome(View(), status) == old(StartRun(View(), repository, index, executor, startOk))
    {
      hide RegistryOk; hide Separate; hide InstallsView; hide TokensView; hide AppendRunEvent;
      var run := workflowRuns[index];
      if run.status != Queued {
        activeRuns := activeRuns - {run.id};
        SetsKept();
        return 409;
      }
      if run.cancellationRequested {
        activeRuns := activeRuns - {run.id};
        SetsKept();
        StoreRun(repository, index, run.(status := Completed, conclusion := "cancelled"), "completed");
        return 200;
      }
      if !startOk {
        activeRuns := activeRuns - {run.id};
        SetsKept();
        return 500;
      }
      activeRuns := activeRuns[run.id := ActiveRun(Some(executor), false)];
      SetsKept();
      StoreRun(repository, index, run.(status := InProgress), "in_progress");
      return 0;
    }

    // The finish region of executeWorkflowRun.
    method FinishRunner(repository: Repository, index: nat, exitZero: bool, logs: string)
      requires Valid() && index < |workflowRuns|
      modifies `workflowRuns, `activeRuns, `pendingEvents, `nextEventID, `mutations
      ensures Valid() && View() == old(FinishRun(View(), repository, index, exitZero, logs).world)
    {
      hide RegistryOk; hide Separate; hide InstallsView; hide TokensView; hide AppendRunEvent;
      var run := workflowRuns[index];
      var signalled := run.id in activeRuns && activeRuns[run.id].cancellationSignalled;
      activeRuns := activeRuns - {run.id};
      SetsKept();
      var conclusion := "failure";
      if signalled && !exitZero {
        conclusion := "cancelled";
      } else if exitZero {
        conclusion := "success";
      }
      StoreRun(repository, index, run.(status := Completed, logs := logs, conclusion := conclusion), "completed");
    }

    method AuthenticateInstallationToken(raw: string) returns (token: Option<TokenRecord>)
      requires Valid()
      ensures Valid() && View() == old(View())
      ensures token.Some? <==> Authenticate(View(), raw).Some?
      ensures token.Some? ==>
                raw in tokens && token.value == tokens[raw] && Authenticate(View(), raw).value == TokenView(token.value)
    {
      if raw in tokens && now < tokens[raw].expiresAt {
        return Some(tokens[raw]);
      }
      return None;
    }

    method CancelWorkflowRun(token: TokenRecord, owner: string, name: string, runID: int, delivered: bool)
      returns (status: int)
      requires Valid()
      modifies `workflowRuns, `activeRuns, `mutations
      ensures status != 202 ==> View() == old(View())
      ensures Valid() && Outcome(View(), status)
              == old(CancelRun(casing, View(), TokenView(token), owner, name, runID, delivered))
    {
      hide RegistryOk; hide Separate; hide InstallsView; hide TokensView; hide FindRunIn; hide RepoName; hide Interrupt;
      var key := RepoName(casing, owner, name);
      if key !in repoNames {
        return 404;
      }
      var repositoryID := repoNames[key];
      if repositoryID !in token.repositoryIDs.ids
         || PermissionRank(Lookup(token.permissions, "actions")) < PermissionRank("write") {
        return 404;
      }
      var index := RunInRepository(runID, repositoryID);
      SetsKept();
      if index == |workflowRuns| {
        return 404;
      }
      if workflowRuns[index].status == Completed {
        return 409;
      }
      MarkCancelled(index, runID, delivered);
      return 202;
    }

    // The scan of a cancellation: the first run with the id in the repository, if any.
    method RunInRepository(runID: int, repositoryID: int) returns (index: nat)
      ensures index == FindRunIn(workflowRuns, runID, repositoryID)
    {
      index := 0;
      while index < |workflowRuns|
          && !(workflowRuns[index].id == runID && workflowRuns[index].repositoryID == repositoryID)
        invariant index <= |workflowRuns|
        invariant forall j :: 0 <= j < index ==>
                  !(workflowRuns[j].id == runID && workflowRuns[j].repositoryID == repositoryID)
      {
        index := index + 1;
      }
    }

    method MarkCancelled(index: nat, runID: int, delivered: bool)
      requires index < |workflowRuns|
      modifies `workflowRuns, `activeRuns, `mutations
      ensures View() == old(View().(ci :=
                                    CiView().(runs := workflowRuns[index :=
                                                                   workflowRuns[index].(cancellationRequested := true)],
                                                    active := Interrupt(activeRuns, runID, delivered)),
                                    mutations := mutations + 1))
    {
      hide InstallsView; hide TokensView;
      workflowRuns := workflowRuns[index := workflowRuns[index].(cancellationRequested := true)];
      if runID in activeRuns && activeRuns[runID].command.Some? && delivered {
        activeRuns := activeRuns[runID := activeRuns[runID].(cancellationSignalled := true)];
      }
      mutations := mutations + 1;
      SetsKept();
    }

    // The read region of PullRequests.Get.
    method LookupPull(token: TokenRecord, owner: string, name: string, number: int) returns (stored: Option<Stored>)
      requires Valid()
      ensures Valid() && View() == old(View())
      ensures stored == ReadPull(casing, View(), TokenView(token), owner, name, number)
    {
      hide InstallsView; hide TokensView; hide RepoName;
      var key := RepoName(casing, owner, name);
      if key !in repoNames {
        return None;
      }
      var repositoryID := repoNames[key];
      if repositoryID !in token.repositoryIDs.ids || !CanReadPulls(token.permissions) {
        return None;
      }
      if PullKey(repositoryID, number) !in pulls {
        return None;
      }
      return Some(Stored(PullKey(repositoryID, number), pulls[PullKey(repositoryID, number)]));
    }

    method RecordObservationError(repositoryID: int)
      requires Valid()
      modifies `observationErrors
      ensures Valid() && View() == old(ReceiveRegions.RecordObservationError(View(), repositoryID))
    {
      hide RegistryOk; hide Separate; hide InstallsView; hide TokensView;
      observationErrors := observationErrors + [ObservationError(repositoryID, now)];
      SetsKept();
    }

    // The listing region of refreshPullSnapshots.
    method ListSnapshots(repositoryID: int) returns (snapshots: map<PullKey, (string, string)>)
      requires Valid()
      ensures Valid() && View() == old(View())
      ensures snapshots == ListPulls(View(), repositoryID)
    {
      snapshots := map[];
      var rest := pulls.Keys;
      while rest != {}
        invariant rest <= pulls.Keys
        invariant snapshots.Keys == set key | key in pulls && key !in rest && key.repositoryID == repositoryID
        invariant forall key :: key in snapshots ==> snapshots[key] == (pulls[key].baseRef, pulls[key].headRef)
        decreases rest
      {
        var key :| key in rest;
        if key.repositoryID == repositoryID {
          snapshots := snapshots[key := (pulls[key].baseRef, pulls[key].headRef)];
        }
        rest := rest - {key};
      }
    }

    // One write region of refreshPullSnapshots.
    method WriteSnapshot(key: PullKey, baseRef: string, headRef: string, baseSHA: string, headSHA: string)
      requires Valid()
      modifies `pulls
      ensures Valid() && View() == old(RefreshPull(View(), key, baseRef, headRef, baseSHA, headSHA))
    {
      hide RegistryOk; hide Separate; hide InstallsView; hide TokensView;
      if key in pulls && pulls[key].baseRef == baseRef && pulls[key].headRef == headRef {
        var pull := pulls[key];
        if baseSHA != "" {
          pull := pull.(baseSHA := baseSHA);
        }
        if headSHA != "" {
          pull := pull.(headSHA := headSHA);
        }
        pulls := pulls[key := pull];
      }
      SetsKept();
    }

    // The inner scan of selectRepositories, in whatever order the installation's set is ranged over.
    method FindByName(i: InstallationRecord, name: string, ghost reg: Registry) returns (found: bool, id: int)
      requires reg.repositories == repositories
      ensures found ==> id in i.repositoryIDs.ids && Matches(casing, reg, id, name)
      ensures !found ==> forall id :: id in i.repositoryIDs.ids ==> !Matches(casing, reg, id, name)
    {
      var rest := i.repositoryIDs.ids;
      while rest != {}
        invariant rest <= i.repositoryIDs.ids
        invariant forall id :: id in i.repositoryIDs.ids && id !in rest ==> !Matches(casing, reg, id, name)
        decreases rest
      {
        SomeID(rest);
        id :| id in rest;
        var known := if id in repositories then repositories[id].name else "";
        if casing.EqualFold(known, name) {
          return true, id;
        }
        rest := rest - {id};
      }
      return false, 0;
    }

    method SelectByID(i: InstallationRecord, ids: seq<int>) returns (valid: bool, selected: RepositorySet)
      ensures fresh(selected)
      ensures valid == (forall k :: 0 <= k < |ids| ==> ids[k] in i.repositoryIDs.ids)
      ensures valid ==> selected.ids == set id | id in ids
    {
      selected := new RepositorySet();
      for k := 0 to |ids|
        invariant fresh(selected) && selected.ids == set id | id in ids[..k]
        invariant forall j :: 0 <= j < k ==> ids[j] in i.repositoryIDs.ids
      {
        if ids[k] !in i.repositoryIDs.ids {
          return false, selected;
        }
        selected.Add(ids[k]);
        assert ids[..k + 1] == ids[..k] + [ids[k]];
      }
      assert ids[..|ids|] == ids;
      return true, selected;
    }

    // The second loop of selectRepositories: one repository more for each requested name.
    method SelectByName(i: InstallationRecord, names: seq<string>, selected: RepositorySet, ghost ids: seq<int>,
                        ghost reg: Registry)
      returns (valid: bool)
      requires RegistryOk(casing, reg) && reg.repositories == repositories && selected != i.repositoryIDs
      requires i.id in reg.installs && reg.installs[i.id].repositoryIDs == i.repositoryIDs.ids
      requires selected.ids == (set id | id in ids) && forall k :: 0 <= k < |ids| ==> ids[k] in i.repositoryIDs.ids
      modifies selected
      ensures valid == Selectable(casing, reg, i.repositoryIDs.ids, ids, names)
      ensures valid ==> selected.ids == Selected(casing, reg, i.repositoryIDs.ids, ids, names)
    {
      hide RegistryOk; hide Matches;
      SelectedStart(casing, reg, i.repositoryIDs.ids, ids);
      for k := 0 to |names|
        invariant Selectable(casing, reg, i.repositoryIDs.ids, ids, names[..k])
        invariant selected.ids == Selected(casing, reg, i.repositoryIDs.ids, ids, names[..k])
      {
        var found, id := FindByName(i, names[k], reg);
        if !found {
          return false;
        }
        selected.Add(id);
        assert names[..k + 1] == names[..k] + [names[k]];
        SelectedNext(casing, reg, i.id, ids, names[..k], names[k], id);
      }
      assert names[..|names|] == names;
      return true;
    }

    // The repositories a token request selects, collected into a set of their own.
    method SelectGranted(i: InstallationRecord, ids: seq<int>, names: seq<string>)
      returns (valid: bool, selected: RepositorySet)
      requires Valid() && i.id in installs && installs[i.id] == i
      ensures fresh(selected)
      ensures var answer := old(SelectRepositories(casing, RegistryView(), i.repositoryIDs.ids, ids, names));
              valid == answer.Some? && (valid ==> selected.ids == answer.value)
    {
      ghost var reg := RegistryView();
      assert reg.installs[i.id] == InstallationView(i);
      hide RegistryOk; hide Separate; hide InstallsView; hide TokensView; hide Selected; hide Selectable;
      if ids == [] && names == [] {
        selected := i.repositoryIDs.Copy();
        valid := true;
      } else {
        valid, selected := SelectByID(i, ids);
        if valid {
          valid := SelectByName(i, names, selected, ids, reg);
        } else {
          UnknownID(casing, reg, i.repositoryIDs.ids, ids, names);
        }
      }
      SetsKept();
    }

    lemma InstallationKnown(id: int)
      requires Valid()
      ensures id in RegistryView().installs <==> id in installs
      ensures id in installs ==> RegistryView().installs[id] == InstallationView(installs[id]) && installs[id].id == id
    {
      AccountsFact(casing, RegistryView());
    }

    method CreateInstallationToken(appID: int, request: TokenRequest, value: string) returns (status: int)
      requires Valid()
      modifies `tokens, `mutations
      ensures status != 201 ==> View() == old(View())
      ensures Valid() && Outcome(View(), status)
              == old(PublicRegions.CreateInstallationToken(casing, View(), appID, request, value))
    {
      InstallationKnown(request.installationID);
      hide TokensView; hide SelectRepositories; hide SelectPermissions; hide RegistryOk; hide Separate;
      hide InstallsView;
      if request.repositories != [] && request.repositoryIDs != [] {
        return 422;
      }
      if request.installationID !in installs || installs[request.installationID].appID != appID {
        return 404;
      }
      var i := installs[request.installationID];
      if !i.active {
        return 403;
      }
      status := IssueNarrowed(i, request, value);
    }

    method IssueNarrowed(i: InstallationRecord, request: TokenRequest, value: string) returns (status: int)
      requires Valid() && i.id in installs && installs[i.id] == i && request.installationID == i.id
      modifies `tokens, `mutations
      ensures Valid()
      ensures var ids := old(SelectRepositories(casing, RegistryView(), i.repositoryIDs.ids, request.repositoryIDs,
                                                request.repositories));
              var permissions := SelectPermissions(i.permissions, request.permissions);
              if ids.None? || permissions.None? then status == 422 && View() == old(View())
              else status == 201
                   && View() == old(View()).(tokens :=
                                             old(TokensView(tokens))[value :=
                                                                     Token(value, i.id, ids.value, permissions.value,
                                                                         now + TOKEN_LIFETIME)],
                                             mutations := old(mutations) + 1)
    {
      hide RegistryOk; hide Separate; hide InstallsView; hide TokensView; hide SelectRepositories;
      hide SelectPermissions;
      var selected, permissions := NarrowRequest(i, request);
      if permissions.None? {
        return 422;
      }
      IssueToken(value, i.id, selected, permissions.value);
      return 201;
    }

    // Both halves of the requested scope, or no permissions at all when either half is refused.
    method NarrowRequest(i: InstallationRecord, request: TokenRequest)
      returns (selected: RepositorySet, permissions: Option<map<string, string>>)
      requires Valid() && i.id in installs && installs[i.id] == i
      ensures fresh(selected) && View() == old(View())
      ensures var ids := old(SelectRepositories(casing, RegistryView(), i.repositoryIDs.ids, request.repositoryIDs,
                                                request.repositories));
              var narrowed := SelectPermissions(i.permissions, request.permissions);
              && permissions == (if ids.None? then None else narrowed)
              && (permissions.Some? ==> selected.ids == ids.value)
    {
      hide RegistryOk; hide Separate; hide InstallsView; hide TokensView; hide SelectRepositories;
      hide SelectPermissions;
      var valid;
      valid, selected := SelectGranted(i, request.repositoryIDs, request.repositories);
      permissions := None;
      if valid {
        permissions := NarrowPermissions(i.permissions, request.permissions);
      }
      SetsKept();
    }

    // The stored scope is a copy: nothing else holds the set it is kept in.
    method IssueToken(value: string, installationID: int, selected: RepositorySet, permissions: map<string, string>)
      requires Separate(installs, tokens)
      modifies `tokens, `mutations
      ensures Separate(installs, tokens)
      ensures var t := Token(value, installationID, old(selected.ids), permissions, now + TOKEN_LIFETIME);
              View() == old(View()).(tokens := old(TokensView(tokens))[value := t], mutations := old(mutations) + 1)
    {
      hide InstallsView; hide TokensView; hide Separate;
      var repositoryIDs := selected.Copy();
      var kept := CopyMap(permissions);
      SetsKept();
      var t := TokenRecord(value, installationID, repositoryIDs, kept, now + TOKEN_LIFETIME);
      TokenFiled(installs, tokens, value, t);
      tokens := tokens[value := t];
      mutations := mutations + 1;
    }

    // The first region of a push.
    method BeginReceivePack(raw: string, owner: string, name: string) returns (who: Option<(TokenRecord, Repository)>)
      requires Valid()
      ensures Valid() && View() == old(View())
      ensures who.Some? <==> AuthorizePush(casing, View(), raw, owner, name).Some?
      ensures who.Some? ==>
                AuthorizePush(casing, View(), raw, owner, name).value == (TokenView(who.value.0), who.value.1)
    {
      hide InstallsView; hide RepoName;
      var token := AuthenticateInstallationToken(raw);
      if token.None? {
        return None;
      }
      var key := RepoName(casing, owner, name);
      if key !in repoNames {
        return None;
      }
      var id := repoNames[key];
      if id !in token.value.repositoryIDs.ids {
        return None;
      }
      if PermissionRank(Lookup(token.value.permissions, "contents")) < PermissionRank("write") {
        return None;
      }
      var repository := if id in repositories then repositories[id] else Repository(0, "", "", 0);
      return Some((token.value, repository));
    }

    // Whether each ref was force-pushed, asked of Git before the lock is taken.
    method ForcedRefs(refs: seq<string>, before: Refs, after: Refs, ancestry: Ancestry)
      returns (forced: map<string, bool>)
      ensures forall ref :: ref in refs ==>
                ref in forced && forced[ref] == ForcedUpdate(ancestry, Lookup(before, ref), Lookup(after, ref))
    {
      forced := map[];
      for k := 0 to |refs|
        invariant forall j :: 0 <= j < k ==>
                    refs[j] in forced && forced[refs[j]]
                        == ForcedUpdate(ancestry, Lookup(before, refs[j]), Lookup(after, refs[j]))
      {
        forced := forced[refs[k] := ForcedUpdate(ancestry, Lookup(before, refs[k]), Lookup(after, refs[k]))];
      }
    }

    // The recording region of a push: one event for each ref that differs, in sorted order, and a
    // run for the configured release ref.
    method RecordRefChanges(repository: Repository, token: TokenRecord, before: Refs, after: Refs, ancestry: Ancestry)
      requires Valid()
      modifies `pendingEvents, `nextEventID, `workflowRuns, `nextRunID, `mutations
      ensures Valid() && View()
              == old(ReceiveRegions.RecordRefChanges(View(), repository, TokenView(token), before, after, ancestry))
    {
      hide RegistryOk; hide Separate; hide InstallsView; hide TokensView; hide SortedKeys; hide RecordRefs;
      hide ForcedUpdate;
      ghost var p := Push(RegistryView(), now, repository, TokenView(token), before, after, ancestry);
      var refs := CollectRefs(before, after);
      var forced := ForcedRefs(refs, before, after, ancestry);
      SetsKept();
      var changed := RecordEach(repository, token.installationID, refs, before, after, forced, p);
      CountIf(changed);
    }

    method CountIf(changed: bool)
      modifies `mutations
      ensures View() == old(View()).(mutations := old(mutations) + if changed then 1 else 0)
    {
      hide InstallsView; hide TokensView;
      if changed {
        mutations := mutations + 1;
      }
      SetsKept();
    }

    method RecordEach(repository: Repository, installationID: int, refs: seq<string>, before: Refs, after: Refs,
                      forced: map<string, bool>, ghost p: Push) returns (changed: bool)
      requires p.before == before && p.after == after
      requires p.reg == RegistryView() && p.now == now && p.repository == repository
               && p.token.installationID == installationID
      requires forall ref :: ref in refs ==>
                ref in forced && forced[ref] == ForcedUpdate(p.ancestry, p.BeforeSHA(ref), p.AfterSHA(ref))
      modifies `pendingEvents, `nextEventID, `workflowRuns, `nextRunID
      ensures changed <==> exists ref :: ref in refs && p.Moves(ref)
      ensures var r := RecordRefs(old(Recorded(LogView(), CiView())), p, refs, |refs|);
              View() == old(View()).(log := r.log, ci := r.ci)
    {
      hide InstallsView; hide TokensView; hide RecordRef; hide ForcedUpdate;
      changed := false;
      ghost var was := View();
      for k := 0 to |refs|
        invariant var r := RecordRefs(Recorded(was.log, was.ci), p, refs, k);
                  View() == was.(log := r.log, ci := r.ci)
        invariant changed <==> exists j :: 0 <= j < k && p.Moves(refs[j])
      {
        NextRef(Recorded(was.log, was.ci), p, refs, k);
        var ref := refs[k];
        var beforeSHA, afterSHA := Lookup(before, ref), Lookup(after, ref);
        if beforeSHA != afterSHA {
          changed := true;
          RecordMoved(repository, installationID, ref, beforeSHA, afterSHA, forced[ref], p);
        }
      }
    }

    // The loop body of recordRefChanges for a ref that moved.
    method RecordMoved(repository: Repository, installationID: int, ref: string, before: string, after: string,
                       forced: bool, ghost p: Push)
      requires p.reg == RegistryView() && p.now == now && p.repository == repository
               && p.token.installationID == installationID
      requires before == p.BeforeSHA(ref) && after == p.AfterSHA(ref) && before != after
      requires forced == ForcedUpdate(p.ancestry, before, after)
      modifies `pendingEvents, `nextEventID, `workflowRuns, `nextRunID
      ensures var r := RecordRef(old(Recorded(LogView(), CiView())), p, ref);
              View() == old(View()).(log := r.log, ci := r.ci)
    {
      hide TokensView;
      var appID := if installationID in installs then installs[installationID].appID else 0;
      assert appID == p.AppID();
      hide InstallsView;
      AppendPushEvent(repository, appID, ref, before, after, forced);
      if repository.id in workflows && workflows[repository.id].releaseRef == ref && after != "" {
        AppendQueuedWorkflow(repository, workflows[repository.id], ref, after);
      }
    }
  }
}
