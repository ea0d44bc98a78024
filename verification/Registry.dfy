/** What the registry keeps: the name index agrees with the repository table, installations
    partition the repositories, and entries are only ever added. */
module RegistryProofs {
  import opened Text
  import opened Model
  import opened ControlRegions
  import opened PublicRegions

  // Apps and installations are filed under their own positive ids.
  ghost predicate AccountsOk(reg: Registry) {
    && (forall id :: id in reg.apps ==> reg.apps[id].id == id && id > 0)
    && (forall id :: id in reg.installs ==>
          reg.installs[id].id == id && id > 0 && reg.installs[id].appID in reg.apps
              && PermissionsValid(reg.installs[id].permissions))
  }

  // The repository table: each entry is filed under its positive id, with a well-formed owner and name.
  ghost predicate TableOk(reg: Registry) {
    && (forall id :: id in reg.repositories ==>
          && reg.repositories[id].id == id && id > 0
          && ValidPathComponent(reg.repositories[id].owner) && ValidPathComponent(reg.repositories[id].name)
          && reg.repositories[id].installationID in reg.installs)
    && reg.receiveLocks == reg.repositories.Keys
    && reg.workflows.Keys <= reg.repositories.Keys
  }

  // Each repository belongs to exactly the installation it records.
  ghost predicate MembersOk(reg: Registry) {
    forall i, id :: i in reg.installs ==>
      (id in reg.installs[i].repositoryIDs <==> id in reg.repositories && reg.repositories[id].installationID == i)
  }

  ghost predicate PartitionOk(reg: Registry) {
    TableOk(reg) && MembersOk(reg)
  }

  function KeyOf(c: Casing, r: Repository): string {
    RepoName(c, r.owner, r.name)
  }

  ghost predicate NamesOk(c: Casing, reg: Registry) {
    && (forall id :: id in reg.repositories ==>
          KeyOf(c, reg.repositories[id]) in reg.repoNames && reg.repoNames[KeyOf(c, reg.repositories[id])] == id)
    && (forall key :: key in reg.repoNames ==>
          reg.repoNames[key] in reg.repositories && KeyOf(c, reg.repositories[reg.repoNames[key]]) == key)
  }

  // Inside one installation no two repositories have equal folded names.
  ghost predicate FoldsOk(c: Casing, reg: Registry) {
    forall a, b ::
      (a in reg.repositories && b in reg.repositories && a != b
       && reg.repositories[a].installationID == reg.repositories[b].installationID) ==>
        !c.EqualFold(reg.repositories[a].name, reg.repositories[b].name)
  }

  ghost predicate RegistryOk(c: Casing, reg: Registry) {
    AccountsOk(reg) && PartitionOk(reg) && NamesOk(c, reg) && FoldsOk(c, reg)
  }

  ghost predicate InstallationGrows(a: Installation, b: Installation) {
    b == a.(repositoryIDs := b.repositoryIDs) && a.repositoryIDs <= b.repositoryIDs
  }

  ghost predicate Grows(a: Registry, b: Registry) {
    && (forall id :: id in a.apps ==> id in b.apps && b.apps[id] == a.apps[id])
    && (forall id :: id in a.installs ==> id in b.installs && InstallationGrows(a.installs[id], b.installs[id]))
    && (forall id :: id in a.repositories ==> id in b.repositories && b.repositories[id] == a.repositories[id])
  }

  lemma CreateAppKeepsRegistry(c: Casing, w: World, app: App, keyOk: bool)
    requires RegistryOk(c, w.registry)
    ensures RegistryOk(c, CreateApp(w, app, keyOk).world.registry)
    ensures Grows(w.registry, CreateApp(w, app, keyOk).world.registry)
  {
  }

  lemma CreateInstallationKeepsRegistry(c: Casing, w: World, input: InstallationInput)
    requires RegistryOk(c, w.registry)
    ensures RegistryOk(c, CreateInstallation(w, input).world.registry)
    ensures Grows(w.registry, CreateInstallation(w, input).world.registry)
  {
    GrowsReflexive(w.registry);
    hide Grows; hide RegistryOk; hide PermissionsValid; hide OwnerValid;
    if CreateInstallation(w, input).status == 201 {
      AccountsFact(c, w.registry);
      var i := Installation(input.id, input.appID, input.active, input.owner, OwnerTypeOf(input), input.permissions,
                            {});
      InstallationAdded(c, w.registry, i);
    }
  }

  lemma AccountsFact(c: Casing, reg: Registry)
    requires RegistryOk(c, reg)
    ensures forall id :: id in reg.apps ==> reg.apps[id].id != 0
    ensures forall id :: id in reg.installs ==> reg.installs[id].id == id != 0
  {
  }

  lemma GrowsReflexive(reg: Registry)
    ensures Grows(reg, reg)
  {
  }

  lemma InstallationAdded(c: Casing, reg: Registry, i: Installation)
    requires RegistryOk(c, reg) && i.id > 0 && i.id !in reg.installs && i.appID in reg.apps
    requires PermissionsValid(i.permissions) && i.repositoryIDs == {}
    ensures var reg' := reg.(installs := reg.installs[i.id := i]);
            RegistryOk(c, reg') && Grows(reg, reg')
  {
    hide PermissionsValid; hide ValidPathComponent; hide RepoName;
  }

  lemma ConfigureKeepsRegistry(c: Casing, w: World, repositoryID: int, workflow: Workflow, refOk: bool)
    requires RegistryOk(c, w.registry)
    ensures RegistryOk(c, ConfigureWorkflow(w, repositoryID, workflow, refOk).world.registry)
    ensures Grows(w.registry, ConfigureWorkflow(w, repositoryID, workflow, refOk).world.registry)
  {
    GrowsReflexive(w.registry);
    hide Grows; hide RegistryOk;
    if ConfigureWorkflow(w, repositoryID, workflow, refOk).status == 201 {
      WorkflowAdded(c, w.registry, repositoryID, workflow);
    }
  }

  lemma WorkflowAdded(c: Casing, reg: Registry, repositoryID: int, workflow: Workflow)
    requires RegistryOk(c, reg) && repositoryID in reg.repositories
    ensures var reg' := reg.(workflows := reg.workflows[repositoryID := workflow]);
            RegistryOk(c, reg') && Grows(reg, reg')
  {
    hide PermissionsValid; hide ValidPathComponent; hide RepoName;
  }

  // What createRepository has checked when it registers a repository.
  ghost predicate Registrable(c: Casing, reg: Registry, input: RepositoryInput) {
    && input.id > 0 && ValidPathComponent(input.owner) && ValidPathComponent(input.name)
    && input.installationID in reg.installs && input.id !in reg.repositories
    && RepoName(c, input.owner, input.name) !in reg.repoNames
    && !NameTaken(c, reg, reg.installs[input.installationID], input.name)
  }

  lemma RegisterKeepsPartition(c: Casing, reg: Registry, input: RepositoryInput)
    requires Registrable(c, reg, input) && AccountsOk(reg) && PartitionOk(reg)
    ensures AccountsOk(RegisterRepository(c, reg, input)) && Grows(reg, RegisterRepository(c, reg, input))
    ensures PartitionOk(RegisterRepository(c, reg, input))
  {
    RegisterGrows(c, reg, input);
    RegisterKeepsTable(c, reg, input);
    RegisterKeepsMembers(c, reg, input);
    hide RegisterRepository; hide Registrable; hide AccountsOk; hide Grows; hide TableOk; hide MembersOk;
  }

  lemma RegisterKeepsTable(c: Casing, reg: Registry, input: RepositoryInput)
    requires Registrable(c, reg, input) && TableOk(reg)
    ensures TableOk(RegisterRepository(c, reg, input))
  {
    hide ValidPathComponent; hide NameTaken; hide RepoName;
  }

  lemma RegisterKeepsMembers(c: Casing, reg: Registry, input: RepositoryInput)
    requires Registrable(c, reg, input) && MembersOk(reg)
    ensures MembersOk(RegisterRepository(c, reg, input))
  {
    hide ValidPathComponent; hide NameTaken; hide RepoName;
  }

  lemma RegisterGrows(c: Casing, reg: Registry, input: RepositoryInput)
    requires Registrable(c, reg, input) && AccountsOk(reg)
    ensures AccountsOk(RegisterRepository(c, reg, input)) && Grows(reg, RegisterRepository(c, reg, input))
  {
    hide PermissionsValid; hide ValidPathComponent; hide NameTaken; hide RepoName;
  }

  lemma RegisterKeepsNames(c: Casing, reg: Registry, input: RepositoryInput)
    requires Registrable(c, reg, input) && NamesOk(c, reg)
    ensures NamesOk(c, RegisterRepository(c, reg, input))
  {
  }

  lemma RegisterKeepsFolds(c: Casing, reg: Registry, input: RepositoryInput)
    requires Registrable(c, reg, input) && PartitionOk(reg) && FoldsOk(c, reg)
    ensures FoldsOk(c, RegisterRepository(c, reg, input))
  {
    forall a | a in reg.repositories && reg.repositories[a].installationID == input.installationID
      ensures !c.EqualFold(reg.repositories[a].name, input.name) && !c.EqualFold(input.name, reg.repositories[a].name)
    {
      assert a in reg.installs[input.installationID].repositoryIDs;
      assert RepositoryOf(reg, a) == reg.repositories[a];
      FoldSymmetric(c, reg.repositories[a].name, input.name);
    }
  }

  lemma FoldSymmetric(c: Casing, a: string, b: string)
    ensures c.EqualFold(a, b) <==> c.EqualFold(b, a)
  {
  }

  // Equal folds compose, so within an installation a name matches at most one repository.
  lemma MatchIsUnique(c: Casing, reg: Registry, installationID: int, name: string, a: int, b: int)
    requires PartitionOk(reg) && FoldsOk(c, reg) && installationID in reg.installs
    requires a in reg.installs[installationID].repositoryIDs && b in reg.installs[installationID].repositoryIDs
    requires Matches(c, reg, a, name) && Matches(c, reg, b, name)
    ensures a == b
  {
    assert c.EqualFold(reg.repositories[a].name, reg.repositories[b].name);
  }

  lemma CreateRepositoryKeepsRegistry(c: Casing, w: World, input: RepositoryInput, initOk: bool, configOk: bool)
    requires RegistryOk(c, w.registry)
    ensures RegistryOk(c, CreateRepository(c, w, input, initOk, configOk).world.registry)
    ensures Grows(w.registry, CreateRepository(c, w, input, initOk, configOk).world.registry)
  {
    GrowsReflexive(w.registry);
    hide AccountsOk; hide PartitionOk; hide NamesOk; hide FoldsOk; hide Grows; hide ValidPathComponent; hide NameTaken;
    hide RepoName;
    hide RegisterRepository;
    if CreateRepository(c, w, input, initOk, configOk).status == 201 {
      RegisterKeepsPartition(c, w.registry, input);
      RegisterKeepsNames(c, w.registry, input);
      RegisterKeepsFolds(c, w.registry, input);
    }
  }

  // A slash-free first half makes the joined key determine both halves.
  lemma {:induction false} JoinInjective(a: string, b: string, a': string, b': string)
    requires '/' !in a && '/' !in a'
    requires a + "/" + b == a' + "/" + b'
    ensures a == a' && b == b'
  {
    var s := a + "/" + b;
    assert s[|a|] == '/' && s == a' + "/" + b' && s[|a'|] == '/';
    assert forall i :: 0 <= i < |a| ==> s[i] == a[i] != '/';
    assert forall i :: 0 <= i < |a'| ==> s[i] == a'[i] != '/';
    assert |a| == |a'|;
    assert s[..|a|] == a && s[..|a'|] == a';
    assert s[|a| + 1..] == b && s[|a'| + 1..] == b';
  }

  lemma LowerKeepsSlashes(c: Casing, s: string)
    requires c.Valid() && '/' !in s
    ensures '/' !in c.ToLower(s)
  {
  }

  // The index answers a slash-free owner and name exactly as the repository table would.
  lemma IndexAgrees(c: Casing, reg: Registry, owner: string, name: string, id: int)
    requires c.Valid() && RegistryOk(c, reg) && '/' !in owner
    ensures (RepoName(c, owner, name) in reg.repoNames && reg.repoNames[RepoName(c, owner, name)] == id)
            <==> (id in reg.repositories
                  && c.ToLower(reg.repositories[id].owner) == c.ToLower(owner)
                  && c.ToLower(reg.repositories[id].name) == c.ToLower(name))
  {
    var key := RepoName(c, owner, name);
    LowerKeepsSlashes(c, owner);
    if key in reg.repoNames && reg.repoNames[key] == id {
      var r := reg.repositories[id];
      LowerKeepsSlashes(c, r.owner);
      assert KeyOf(c, r) == key;
      JoinInjective(c.ToLower(r.owner), c.ToLower(r.name), c.ToLower(owner), c.ToLower(name));
    }
  }
}
