/** What the control handlers answer and do, case by case, in every reachable state: which requests
    are accepted, what each refusal means, and everything an accepted request stores. */
module ControlAnswers {
  import opened Text
  import opened RefListing
  import opened Model
  import opened Levels
  import opened EventLog
  import opened ControlRegions
  import opened RegistryProofs
  import opened Twin
  import opened Invariants
  import opened Frames
  import opened Safety
  import opened AccessTheorems

  // A control request is served by its handler unless a pull request is being created.
  lemma Served(c: Casing, s: State, l: ControlLabel)
    requires s.drafting.None? || l.ClosePull?
    ensures Step(c, s, OnControl(l)) == ControlStep(c, s, l)
  {
    hide ControlStep;
  }

  // One original event more, created now, of this kind and action, for this App and repository.
  ghost predicate Tells(w: World, w': World, kind: string, action: string, appID: int, repositoryID: int) {
    var n := |w.log.events|;
    && |w'.log.events| == n + 1 && w'.log.events[..n] == w.log.events && w'.log.nextEventID == w.log.nextEventID + 1
    && var e := w'.log.events[n];
       e.kind == kind && e.action == action && e.appID == appID && e.repositoryID == repositoryID
       && e.createdAt == w.now && Original(w'.log.events, n)
  }

  // An App is registered exactly for an RSA key and a fresh positive id.
  lemma AppAnswer(c: Casing, s: State, app: App, keyOk: bool)
    requires Reachable(c, s) && s.drafting.None?
    ensures var w, done := s.world, ControlRegions.CreateApp(s.world, app, keyOk);
            && (done.status == 201 <==> keyOk && app.id > 0 && app.id !in w.registry.apps)
            && (done.status == 400 <==> !keyOk) && (done.status == 409 <==> keyOk && done.status != 201)
            && done.world == (if done.status != 201 then w
                              else w.(registry := w.registry.(apps := w.registry.apps[app.id := app]),
                                      mutations := w.mutations + 1))
            && Step(c, s, OnControl(AddApp(app, keyOk))) == s.(world := done.world)
  {
    AccountsKnown(c, s);
    Served(c, s, AddApp(app, keyOk));
    hide Reachable; hide Step;
  }

  lemma AccountsKnown(c: Casing, s: State)
    requires Reachable(c, s)
    ensures forall id :: id in s.world.registry.apps ==> s.world.registry.apps[id].id == id && id > 0
    ensures forall id :: id in s.world.registry.installs ==> s.world.registry.installs[id].id == id && id > 0
  {
    AccessFacts(c, s);
    hide Reachable; hide TokensOk; hide PartitionOk; hide NamesOk; hide FoldsOk;
  }

  // A word that can be one component of a path.
  predicate Component(s: string) {
    s != "" && s != "." && s != ".." && forall i :: 0 <= i < |s| ==> s[i] != '/' && s[i] != '\\'
  }

  lemma ComponentIsValid(s: string)
    ensures Component(s) <==> ValidPathComponent(s)
  {
    assert '/' in s <==> exists i :: 0 <= i < |s| && s[i] == '/';
    assert '\\' in s <==> exists i :: 0 <= i < |s| && s[i] == '\\';
  }

  // Named permissions at known levels, and an account, if any, of a known type.
  predicate GoodInstallation(input: InstallationInput) {
    && (forall p :: p in input.permissions ==> p != "" && MayRead(input.permissions[p]))
    && (input.owner != "" ==>
          Component(input.owner)
          && (input.ownerType == "" || input.ownerType == "User" || input.ownerType == "Organization"))
  }

  lemma GoodIsValid(input: InstallationInput)
    ensures GoodInstallation(input) <==> PermissionsValid(input.permissions) && OwnerValid(input)
    ensures OwnerTypeOf(input) == if input.owner != "" && input.ownerType == "" then "User" else input.ownerType
  {
    ComponentIsValid(input.owner);
    forall p | p in input.permissions
      ensures MayRead(input.permissions[p]) <==> PermissionRank(input.permissions[p]) != 0
    {
      RankMeans(input.permissions[p]);
    }
    hide PermissionRank; hide MayRead; hide Component; hide ValidPathComponent;
  }

  // The columns of an installation just created.
  ghost predicate IsInstallation(i: Installation, input: InstallationInput) {
    && i.id == input.id && i.appID == input.appID && i.active == input.active && i.owner == input.owner
    && i.ownerType == (if input.owner != "" && input.ownerType == "" then "User" else input.ownerType)
    && i.permissions == input.permissions && i.repositoryIDs == {}
  }

  // An installation is created exactly for good permissions and owner, a fresh positive id and a
  // known App; it is announced to that App when it has an owner.
  lemma InstallationAnswer(c: Casing, s: State, input: InstallationInput)
    requires Reachable(c, s) && s.drafting.None?
    ensures var w, done := s.world, CreateInstallation(s.world, input);
            var good, fresh_ := GoodInstallation(input), input.id > 0 && input.id !in w.registry.installs;
            && (done.status == 201 <==> good && fresh_ && input.appID in w.registry.apps)
            && (done.status == 409 <==> good && !fresh_)
            && (done.status == 400 <==> !good || (fresh_ && input.appID !in w.registry.apps))
            && (done.status != 201 ==> done.world == w)
            && (done.status == 201 ==>
                  && input.id in done.world.registry.installs
                  && IsInstallation(done.world.registry.installs[input.id], input)
                  && done.world == w.(registry := w.registry.(installs := w.registry.installs[input.id :=
                                                                done.world.registry.installs[input.id]]),
                                      log := done.world.log, mutations := w.mutations + 1)
                  && (if input.owner == "" then done.world.log == w.log
                      else Tells(w, done.world, "installation", "created", input.appID, 0)))
            && Step(c, s, OnControl(AddInstallation(input))) == s.(world := done.world)
  {
    AccountsKnown(c, s);
    GoodIsValid(input);
    Served(c, s, AddInstallation(input));
    hide Reachable; hide Step; hide PermissionsValid; hide OwnerValid; hide GoodInstallation; hide OwnerTypeOf;
    hide Guid;
  }

  // No registered repository has this owner and name, letter case aside, and none of the
  // installation has a name that folds to this one.
  predicate FreshName(c: Casing, reg: Registry, input: RepositoryInput) {
    && (forall id :: id in reg.repositories ==> !Named(c, reg, input.owner, input.name, id))
    && (forall id :: id in reg.repositories && reg.repositories[id].installationID == input.installationID ==>
          !c.EqualFold(reg.repositories[id].name, input.name))
  }

  predicate GoodRepository(reg: Registry, input: RepositoryInput) {
    input.id > 0 && Component(input.owner) && Component(input.name) && input.installationID in reg.installs
  }

  lemma FreshNameIs(c: Casing, s: State, input: RepositoryInput)
    requires c.Valid() && Reachable(c, s) && GoodRepository(s.world.registry, input)
    ensures var reg := s.world.registry;
            FreshName(c, reg, input)
            <==> (&& RepoName(c, input.owner, input.name) !in reg.repoNames
                  && !NameTaken(c, reg, reg.installs[input.installationID], input.name))
  {
    var reg := s.world.registry;
    AccessFacts(c, s);
    ComponentIsValid(input.owner);
    forall id ensures (RepoName(c, input.owner, input.name) in reg.repoNames
                       && reg.repoNames[RepoName(c, input.owner, input.name)] == id)
                      <==> Named(c, reg, input.owner, input.name, id)
    {
      IndexAgrees(c, reg, input.owner, input.name, id);
    }
    TakenIsMember(c, reg, input);
    hide Reachable; hide TokensOk; hide AccountsOk; hide NamesOk; hide FoldsOk; hide RepoName; hide Component;
    hide NameTaken; hide PartitionOk;
    if RepoName(c, input.owner, input.name) in reg.repoNames {
      assert Named(c, reg, input.owner, input.name, reg.repoNames[RepoName(c, input.owner, input.name)]);
    }
  }

  lemma TakenIsMember(c: Casing, reg: Registry, input: RepositoryInput)
    requires PartitionOk(reg) && input.installationID in reg.installs
    ensures NameTaken(c, reg, reg.installs[input.installationID], input.name)
            <==> exists id :: id in reg.repositories && reg.repositories[id].installationID == input.installationID
                              && c.EqualFold(reg.repositories[id].name, input.name)
  {
    hide TableOk;
    var i := reg.installs[input.installationID];
    forall id ensures id in i.repositoryIDs
                      <==> id in reg.repositories && reg.repositories[id].installationID == input.installationID
    {
    }
  }

  // A repository is registered exactly for a good request, a fresh id, a fresh name and a Git that
  // prepares it; it joins its installation, and is announced when that has an owner.
  lemma RepositoryAnswer(c: Casing, s: State, input: RepositoryInput, initOk: bool, configOk: bool)
    requires c.Valid() && Reachable(c, s)
    ensures var w, reg, done := s.world, s.world.registry, CreateRepository(c, s.world, input, initOk, configOk);
            var good := GoodRepository(reg, input);
            && (done.status == 400 <==> !good)
            && (done.status == 409 <==> good && !(input.id !in reg.repositories && FreshName(c, reg, input)))
            && (done.status == 500
                <==> good && input.id !in reg.repositories && FreshName(c, reg, input) && !(initOk && configOk))
            && (done.status == 201
                <==> good && input.id !in reg.repositories && FreshName(c, reg, input) && initOk && configOk)
            && (done.status != 201 ==> done.world == w)
            && (done.status == 201 ==> IsRegistered(c, w, done.world, input))
  {
    AccountsKnown(c, s);
    if GoodRepository(s.world.registry, input) {
      FreshNameIs(c, s, input);
    }
    ComponentIsValid(input.owner);
    ComponentIsValid(input.name);
    RegisteredIs(c, s.world, input, initOk, configOk);
    hide Reachable; hide FreshName; hide NameTaken; hide Component; hide ValidPathComponent; hide RepoName;
    hide RegisterRepository; hide AppendRepositoriesEvent; hide IsRegistered;
  }

  lemma RegisteredIs(c: Casing, w: World, input: RepositoryInput, initOk: bool, configOk: bool)
    requires input.installationID in w.registry.installs ==>
               w.registry.installs[input.installationID].id == input.installationID
    ensures var done := CreateRepository(c, w, input, initOk, configOk);
            && (done.status == 201 ==> IsRegistered(c, w, done.world, input))
            && (done.status != 201 ==> done.world == w)
  {
    hide NameTaken; hide ValidPathComponent; hide Guid; hide FullName;
  }

  // The branches found on disk are the registered repository's, and its history starts from what is
  // read of them.
  lemma RepositoryStored(c: Casing, s: State, input: RepositoryInput, initOk: bool, configOk: bool, found: Refs)
    requires s.drafting.None? && GitRefs(found)
    ensures var done := CreateRepository(c, s.world, input, initOk, configOk);
            Step(c, s, OnControl(AddRepository(input, initOk, configOk, found)))
            == if done.status != 201 then s
               else s.(world := done.world, git := s.git[input.id := found],
                       initial := s.initial[input.id := Base(0, 0, Reading(found))],
                       lastHeld := s.lastHeld[input.id := found])
  {
    hide CreateRepository; hide GitRefs; hide Reading;
  }

  // What a registration leaves behind, table by table.
  ghost predicate IsRegistered(c: Casing, w: World, w': World, input: RepositoryInput) {
    var reg, reg' := w.registry, w'.registry;
    && input.installationID in reg.installs
    && var i := reg.installs[input.installationID];
       var r := Repository(input.id, input.owner, input.name, input.installationID);
       && reg' == reg.(repositories := reg.repositories[input.id := r], receiveLocks := reg.receiveLocks + {input.id},
                       repoNames := reg.repoNames[c.ToLower(input.owner) + "/" + c.ToLower(input.name) := input.id],
                       installs := reg.installs[i.id := i.(repositoryIDs := i.repositoryIDs + {input.id})])
       && w' == w.(registry := reg', log := w'.log, mutations := w.mutations + 1)
       && if i.owner == "" then w'.log == w.log
          else Tells(w, w', "installation_repositories", "added", i.appID, input.id)
  }

  // A pull request may be drafted exactly for a positive number, two branch names, a known state
  // and repository, and a fresh number.
  lemma PullChecked(c: Casing, s: State, input: PullInput)
    requires s.drafting.None?
    ensures var w := s.world;
            var good := input.number > 0 && input.baseRef != "" && input.headRef != ""
                        && (input.state == "" || input.state == "open" || input.state == "closed")
                        && input.repositoryID in w.registry.repositories;
            var exists_ := PullKey(input.repositoryID, input.number) in w.pulls;
            && (CheckPull(w, input) == 0 <==> good && !exists_) && (CheckPull(w, input) == 409 <==> good && exists_)
            && (CheckPull(w, input) == 400 <==> !good)
            && Step(c, s, OnControl(OpenPull(input))).drafting.Some? == (good && !exists_)
            && Step(c, s, OnControl(OpenPull(input))).world == w
  {
    hide GitOf;
  }

  predicate NotClosed(labels: seq<Label>) {
    forall k :: 0 <= k < |labels| ==> labels[k] != OnControl(ClosePull)
  }

  lemma StepKeepsDraft(c: Casing, s: State, l: Label)
    requires s.drafting.Some? && l != OnControl(ClosePull)
    ensures var s' := Step(c, s, l); s'.drafting == s.drafting && s'.world.pulls.Keys == s.world.pulls.Keys
  {
    hide ControlStep; hide PublicStep; hide RunStep; hide DeliveryStep; hide ReceiveStep;
    if !NeedsLock(l) {
      match l
      case OnControl(k) =>
      case OnPublic(p) => PublicFrame(c, s, p);
      case OnRun(r) => RunFrame(s, r);
      case OnDelivery(d) => DeliveryFrame(s, d);
      case OnReceive(r) => ReceiveKeepsPulls(c, s, r);
    }
  }

  lemma ReceiveKeepsPulls(c: Casing, s: State, l: ReceiveLabel)
    requires !NeedsLock(OnReceive(l))
    ensures var s' := ReceiveStep(c, s, l); s'.drafting == s.drafting && s'.world.pulls == s.world.pulls
  {
    ReceiveFrame(c, s, l);
    if l.Lock? {
      QueueFrame(c, s, l);
    } else if l.MoveRef? {
      MoveRefFrame(c, s, l.repo, l.ref, l.target);
    } else if l.repo in s.packs {
      PackFrame(s, l.repo, s.packs[l.repo], l);
      hide PackStep;
    }
  }

  lemma {:induction false} RunKeepsDraft(c: Casing, s: State, labels: seq<Label>)
    requires s.drafting.Some? && NotClosed(labels)
    ensures var s' := Execute(c, s, labels); s'.drafting == s.drafting && s'.world.pulls.Keys == s.world.pulls.Keys
  {
    hide Step;
    if labels != [] {
      var n := |labels| - 1;
      RunKeepsDraft(c, s, labels[..n]);
      StepKeepsDraft(c, Execute(c, s, labels[..n]), labels[n]);
    }
  }

  // A pull request drafted in `s` is stored when its handler ends, whatever pushes do in between,
  // exactly if its base was a live branch at the first look and its head at the second, at the
  // object ids seen then.
  lemma PullAnswer(c: Casing, s: State, input: PullInput, labels: seq<Label>)
    requires Reachable(c, s) && s.drafting.None? && CheckPull(s.world, input) == 0 && NotClosed(labels)
    ensures var key := PullKey(input.repositoryID, input.number);
            var s2 := Execute(c, Step(c, s, OnControl(OpenPull(input))), labels);
            var s3 := Step(c, s2, OnControl(ClosePull));
            && key !in s2.world.pulls && s3.drafting.None?
            && input.repositoryID in s.git && input.repositoryID in s2.git
            && var base, head := s.git[input.repositoryID], s2.git[input.repositoryID];
               && (key in s3.world.pulls <==> input.baseRef in base && input.headRef in head)
               && (key !in s3.world.pulls ==> s3.world == s2.world)
               && (key in s3.world.pulls ==>
                     && s3.world.pulls == s2.world.pulls[key := Pull(input.baseRef, input.headRef, base[input.baseRef],
                                                                     head[input.headRef],
                                                                     if input.state == "" then "open" else input.state,
                                                                     input.draft)]
                     && s3.world == s2.world.(pulls := s3.world.pulls, mutations := s2.world.mutations + 1))
  {
    var s1 := Step(c, s, OnControl(OpenPull(input)));
    var s2 := Execute(c, s1, labels);
    PullChecked(c, s, input);
    DraftIs(c, s, input);
    RunKeepsDraft(c, s1, labels);
    ReachableNext(c, s, OnControl(OpenPull(input)));
    ReachableOnward(c, s1, labels);
    DraftedRefs(c, s, input.repositoryID, input.baseRef);
    DraftedRepository(c, s2);
    hide Reachable; hide Execute; hide Step; hide CheckPull; hide DraftOf;
    DraftedRefs(c, s2, input.repositoryID, input.headRef);
    CloseIs(c, s2);
    hide ControlStep;
  }

  lemma DraftIs(c: Casing, s: State, input: PullInput)
    requires s.drafting.None? && CheckPull(s.world, input) == 0
    ensures Step(c, s, OnControl(OpenPull(input)))
            == s.(drafting := Some(Draft(PullKey(input.repositoryID, input.number), input.baseRef, input.headRef,
                                         if input.state == "" then "open" else input.state, input.draft,
                                         Lookup(GitOf(s, input.repositoryID), input.baseRef))))
    ensures PullKey(input.repositoryID, input.number) !in s.world.pulls
            && input.repositoryID in s.world.registry.repositories
  {
    hide GitOf; hide Lookup;
  }

  lemma DraftedRefs(c: Casing, s: State, repo: int, ref: string)
    requires Reachable(c, s) && repo in s.world.registry.repositories
    ensures repo in s.git && GitOf(s, repo) == s.git[repo]
    ensures ref in s.git[repo] ==> Lookup(s.git[repo], ref) == s.git[repo][ref] != ""
    ensures ref !in s.git[repo] ==> Lookup(s.git[repo], ref) == ""
  {
    RefsKnown(c, s, repo);
    hide Reachable;
    assert ref in s.git[repo] ==> GitRef(ref, s.git[repo][ref]);
  }

  lemma RefsKnown(c: Casing, s: State, repo: int)
    requires Reachable(c, s) && repo in s.world.registry.repositories
    ensures repo in s.git && GitRefs(s.git[repo])
  {
    ReachableOk(c, s);
    hide Reachable; hide WorldOk; hide HistoryOk; hide PullsOk; hide RefreshesOk; hide DraftOk; hide HeldOk;
    hide GitRefs;
  }

  lemma DraftedRepository(c: Casing, s: State)
    requires Reachable(c, s) && s.drafting.Some?
    ensures s.drafting.value.key.repositoryID in s.world.registry.repositories
  {
    ReachableOk(c, s);
    hide Reachable; hide WorldOk; hide HistoryOk; hide PullsOk; hide RefreshesOk;
  }

  lemma CloseIs(c: Casing, s: State)
    requires s.drafting.Some?
    ensures var d := s.drafting.value;
            var headSHA := Lookup(GitOf(s, d.key.repositoryID), d.headRef);
            Step(c, s, OnControl(ClosePull))
            == s.(drafting := None,
                  world := if d.baseSHA == "" || headSHA == "" then s.world
                           else s.world.(pulls := s.world.pulls[d.key := Pull(d.baseRef, d.headRef, d.baseSHA, headSHA,
                                                                              d.state, d.draft)],
                                         mutations := s.world.mutations + 1))
  {
    hide GitOf; hide Lookup;
  }

  // The state of a pull request changes exactly to "open" or "closed", and nothing else about it.
  lemma PullStateAnswer(c: Casing, s: State, key: PullKey, state: string)
    requires s.drafting.None?
    ensures var w, done := s.world, ChangePullState(s.world, key, state);
            var good := state == "open" || state == "closed";
            && (done.status == 200 <==> good && key in w.pulls) && (done.status == 404 <==> good && key !in w.pulls)
            && (done.status == 400 <==> !good) && (done.status != 200 ==> done.world == w)
            && (done.status == 200 ==>
                  done.world == w.(pulls := w.pulls[key := w.pulls[key].(state := state)],
                                   mutations := w.mutations + 1))
            && Step(c, s, OnControl(SetPullState(key, state))) == s.(world := done.world)
  {
  }

  // The clock moves exactly for a duration that parses and is not negative, and by exactly that.
  lemma AdvanceAnswer(c: Casing, s: State, duration: Option<int>)
    requires s.drafting.None?
    ensures var w, done := s.world, AdvanceTime(s.world, duration);
            && (done.status == 200 <==> duration.Some? && 0 <= duration.value)
            && (done.status != 200 ==> done.status == 400 && done.world == w)
            && (done.status == 200 ==>
                  done.world == w.(now := w.now + duration.value, mutations := w.mutations + 1))
            && Step(c, s, OnControl(Advance(duration))) == s.(world := done.world)
  {
  }

  // A workflow is configured exactly for a positive id, a name, a path and a release ref Git
  // accepts, on a known repository; it replaces that repository's only.
  lemma WorkflowAnswer(c: Casing, s: State, repo: int, workflow: Workflow, refOk: bool)
    requires s.drafting.None?
    ensures var w, done := s.world, ConfigureWorkflow(s.world, repo, workflow, refOk);
            && (done.status == 201
                <==> (&& workflow.id > 0 && workflow.name != "" && workflow.path != "" && workflow.releaseRef != ""
                      && refOk && repo in w.registry.repositories))
            && (done.status != 201 ==> done.status == 400 && done.world == w)
            && (done.status == 201 ==>
                  done.world == w.(registry := w.registry.(workflows := w.registry.workflows[repo := workflow]),
                                   mutations := w.mutations + 1))
            && Step(c, s, OnControl(Configure(repo, workflow, refOk))) == s.(world := done.world)
  {
  }

  // The snapshot counts each table under its own name and shows every list as it is.
  lemma StateAnswer(w: World)
    ensures var v := GetState(w);
            && v.now == w.now && v.apps == |w.registry.apps| && v.installations == |w.registry.installs|
            && v.repositories == |w.registry.repositories| && v.pullRequests == |w.pulls| && v.tokens == |w.tokens|
            && v.mutations == w.mutations && v.events == w.log.events && v.runs == w.ci.runs
            && v.attempts == w.attempts && v.errors == w.errors && v.unsupported == w.unsupported
  {
  }

  // An unsupported request leaves its verb, path and time, and is no mutation.
  lemma UnsupportedAnswer(c: Casing, s: State, verb: string, path: string)
    requires s.drafting.None?
    ensures var w := s.world;
            Step(c, s, OnControl(Unsupport(verb, path)))
            == s.(world := w.(unsupported := w.unsupported + [Unsupported(verb, path, w.now)]))
  {
  }
}
