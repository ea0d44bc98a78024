/** The locked regions of the control handlers (dtu/control.go). */
module ControlRegions {
  import opened Text
  import opened RefListing
  import opened Model
  import opened EventLog

  datatype InstallationInput = InstallationInput(
    id: int, appID: int, active: bool, owner: string, ownerType: string, permissions: map<string, string>)

  datatype RepositoryInput = RepositoryInput(id: int, owner: string, name: string, installationID: int)

  datatype PullInput = PullInput(repositoryID: int, number: int, baseRef: string, headRef: string, state: string,
                                 draft: bool)

  // createPullRequest between its two ref reads, still holding the world's lock.
  datatype Draft = Draft(key: PullKey, baseRef: string, headRef: string, state: string, draft: bool, baseSHA: string)

  function Reject(w: World, status: int): Outcome {
    Outcome(w, status)
  }

  // `keyOk`: the PEM block parsed as an RSA public key.
  function CreateApp(w: World, app: App, keyOk: bool): Outcome {
    if !keyOk then Reject(w, 400)
    else if app.id <= 0 || AppOf(w.registry, app.id).id != 0 then Reject(w, 409)
    else Outcome(w.(registry := w.registry.(apps := w.registry.apps[app.id := app]), mutations := w.mutations + 1), 201)
  }

  predicate PermissionsValid(permissions: map<string, string>) {
    forall p :: p in permissions ==> p != "" && PermissionRank(permissions[p]) != 0
  }

  function OwnerTypeOf(input: InstallationInput): string {
    if input.owner != "" && input.ownerType == "" then "User" else input.ownerType
  }

  predicate OwnerValid(input: InstallationInput) {
    input.owner != "" ==>
      ValidPathComponent(input.owner) && (OwnerTypeOf(input) == "User" || OwnerTypeOf(input) == "Organization")
  }

  function AppendInstallationEvent(log: Log, now: int, i: Installation): Log {
    AppendAppEvent(log, now, "installation", "created", i.appID, 0,
                   InstallationBody("created", i.id, i.owner, i.ownerType, i.permissions, i.appID))
  }

  function AppendRepositoriesEvent(log: Log, reg: Registry, now: int, i: Installation, r: Repository): Log {
    AppendEvent(log, reg, now, "installation_repositories", "added", r.id,
                RepositoriesBody("added", i.id, i.owner, i.ownerType, EventRepositoryOf(r), i.appID))
  }

  function CreateInstallation(w: World, input: InstallationInput): Outcome {
    if !PermissionsValid(input.permissions) then Reject(w, 400)
    else if !OwnerValid(input) then Reject(w, 400)
    else if input.id <= 0 || InstallationOf(w.registry, input.id).id != 0 then Reject(w, 409)
    else if input.appID !in w.registry.apps then Reject(w, 400)
    else
      var i := Installation(input.id, input.appID, input.active, input.owner, OwnerTypeOf(input), input.permissions,
                            {});
      Outcome(w.(registry := w.registry.(installs := w.registry.installs[input.id := i]),
                 log := if input.owner != "" then AppendInstallationEvent(w.log, w.now, i) else w.log,
                 mutations := w.mutations + 1), 201)
  }

  predicate NameTaken(c: Casing, reg: Registry, i: Installation, name: string) {
    exists id :: id in i.repositoryIDs && c.EqualFold(RepositoryOf(reg, id).name, name)
  }

  function RegisterRepository(c: Casing, reg: Registry, input: RepositoryInput): Registry
    requires input.installationID in reg.installs
  {
    var i := reg.installs[input.installationID];
    reg.(repositories := reg.repositories[input.id :=
                                          Repository(input.id, input.owner, input.name, input.installationID)],
         receiveLocks := reg.receiveLocks + {input.id},
         repoNames := reg.repoNames[RepoName(c, input.owner, input.name) := input.id],
         installs := reg.installs[input.installationID := i.(repositoryIDs := i.repositoryIDs + {input.id})])
  }

  // `initOk`, `configOk`: the two Git commands that prepare the bare repository.
  function CreateRepository(c: Casing, w: World, input: RepositoryInput, initOk: bool, configOk: bool): Outcome {
    if input.id <= 0 || !ValidPathComponent(input.owner) || !ValidPathComponent(input.name) then Reject(w, 400)
    else if input.installationID !in w.registry.installs then Reject(w, 400)
    else if input.id in w.registry.repositories then Reject(w, 409)
    else if RepoName(c, input.owner, input.name) in w.registry.repoNames then Reject(w, 409)
    else if NameTaken(c, w.registry, w.registry.installs[input.installationID], input.name) then Reject(w, 409)
    else if !initOk || !configOk then Reject(w, 500)
    else
      var reg := RegisterRepository(c, w.registry, input);
      var i := reg.installs[input.installationID];
      Outcome(w.(registry := reg,
                 log := if i.owner != "" then AppendRepositoriesEvent(w.log, reg, w.now, i, reg.repositories[input.id])
                     else w.log,
                 mutations := w.mutations + 1), 201)
  }

  function PullState(input: PullInput): string {
    if input.state == "" then "open" else input.state
  }

  // The checks createPullRequest makes before it reads a ref; 0 lets the request through.
  function CheckPull(w: World, input: PullInput): int {
    if input.number <= 0 || input.baseRef == "" || input.headRef == ""
       || (PullState(input) != "open" && PullState(input) != "closed") then 400
    else if input.repositoryID !in w.registry.repositories then 400
    else if PullKey(input.repositoryID, input.number) in w.pulls then 409
    else 0
  }

  function DraftOf(input: PullInput, refs: Refs): Draft {
    Draft(PullKey(input.repositoryID, input.number), input.baseRef, input.headRef, PullState(input), input.draft,
          Lookup(refs, input.baseRef))
  }

  function FinishPull(w: World, d: Draft, refs: Refs): Outcome {
    var headSHA := Lookup(refs, d.headRef);
    if d.baseSHA == "" || headSHA == "" then Reject(w, 400)
    else Outcome(w.(pulls := w.pulls[d.key := Pull(d.baseRef, d.headRef, d.baseSHA, headSHA, d.state, d.draft)],
                    mutations := w.mutations + 1), 201)
  }

  function ChangePullState(w: World, key: PullKey, state: string): Outcome {
    if state != "open" && state != "closed" then Reject(w, 400)
    else if key !in w.pulls then Reject(w, 404)
    else Outcome(w.(pulls := w.pulls[key := w.pulls[key].(state := state)], mutations := w.mutations + 1), 200)
  }

  // `duration` is None when the text does not parse.
  function AdvanceTime(w: World, duration: Option<int>): Outcome {
    if duration.None? || duration.value < 0 then Reject(w, 400)
    else Outcome(w.(now := w.now + duration.value, mutations := w.mutations + 1), 200)
  }

  // `refOk`: git check-ref-format accepts the release ref.
  function ConfigureWorkflow(w: World, repositoryID: int, workflow: Workflow, refOk: bool): Outcome {
    if workflow.id <= 0 || workflow.name == "" || workflow.path == "" || workflow.releaseRef == "" then Reject(w, 400)
    else if !refOk then Reject(w, 400)
    else if repositoryID !in w.registry.repositories then Reject(w, 400)
    else Outcome(w.(registry := w.registry.(workflows := w.registry.workflows[repositoryID := workflow]),
                    mutations := w.mutations + 1), 201)
  }

  /** What GET /state shows. */
  datatype Snapshot = Snapshot(
    now: int, apps: nat, installations: nat, repositories: nat, pullRequests: nat, tokens: nat, mutations: nat,
    events: seq<Event>, runs: seq<Run>, attempts: seq<Attempt>,
    errors: seq<ObservationError>, unsupported: seq<Unsupported>)

  function GetState(w: World): Snapshot {
    Snapshot(w.now, |w.registry.apps|, |w.registry.installs|, |w.registry.repositories|, |w.pulls|, |w.tokens|,
             w.mutations, w.log.events, w.ci.runs, w.attempts, w.errors, w.unsupported)
  }
}
