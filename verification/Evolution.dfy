/** What every step, and so every run, leaves in place: lists only grow, records only move
    forward, and the mutation counter stamps what the control snapshot shows. */
module Evolution {
  import opened Text
  import opened RefListing
  import opened Model
  import opened EventLog
  import opened ControlRegions
  import opened PublicRegions
  import opened RunRegions
  import opened ReceiveRegions
  import opened RegistryProofs
  import opened LogProofs
  import opened RunProofs
  import opened ReceiveProofs
  import opened Twin
  import opened Invariants
  import opened Frames
  import KeepsPublic
  import KeepsReceive
  import KeepsRun
  import opened Safety

  // A run moves forward: its identity is fixed, an accepted cancellation stays accepted, and
  // a completed run never changes again.
  ghost predicate RunEvolves(a: Run, b: Run) {
    && SameRun(a, b)
    && (a.cancellationRequested ==> b.cancellationRequested)
    && (a.status == InProgress ==> b.status != Queued)
    && (a.status == Completed ==> b == a)
  }

  ghost predicate RunsEvolve(a: seq<Run>, b: seq<Run>) {
    |a| <= |b| && forall i :: 0 <= i < |a| ==> RunEvolves(a[i], b[i])
  }

  // Issued tokens are never rewritten.
  ghost predicate TokensEvolve(a: map<string, Token>, b: map<string, Token>) {
    forall v :: v in a ==> v in b && b[v] == a[v]
  }

  // A pull request keeps its branches; only its object ids and its state change.
  ghost predicate PullsEvolve(a: map<PullKey, Pull>, b: map<PullKey, Pull>) {
    forall key :: key in a ==>
      key in b && b[key] == a[key].(baseSHA := b[key].baseSHA, headSHA := b[key].headSHA, state := b[key].state)
  }

  ghost predicate WorldEvolves(a: World, b: World) {
    && a.now <= b.now && Grows(a.registry, b.registry) && TokensEvolve(a.tokens, b.tokens)
    && PullsEvolve(a.pulls, b.pulls)
    && RunsEvolve(a.ci.runs, b.ci.runs) && a.log.events <= b.log.events && a.attempts <= b.attempts
    && a.errors <= b.errors
  }

  // Two snapshots agree in every field except unsupported requests and observation errors.
  ghost predicate SameShown(a: World, b: World) {
    GetState(a).(errors := [], unsupported := []) == GetState(b).(errors := [], unsupported := [])
  }

  ghost predicate Stamped(a: World, b: World) {
    a.mutations <= b.mutations && (a.mutations == b.mutations ==> SameShown(a, b))
  }

  ghost predicate InitialKept(a: map<int, Base>, b: map<int, Base>) {
    forall repo :: repo in a ==> repo in b && b[repo] == a[repo]
  }

  ghost predicate Evolves(s: State, s': State) {
    WorldEvolves(s.world, s'.world) && Stamped(s.world, s'.world) && s.sent <= s'.sent
        && InitialKept(s.initial, s'.initial)
  }

  lemma EvolvesReflexive(s: State)
    ensures Evolves(s, s)
  {
  }

  lemma RunsTransitive(a: seq<Run>, b: seq<Run>, c: seq<Run>)
    requires RunsEvolve(a, b) && RunsEvolve(b, c)
    ensures RunsEvolve(a, c)
  {
    forall i | 0 <= i < |a| ensures RunEvolves(a[i], c[i]) {
      assert RunEvolves(a[i], b[i]) && RunEvolves(b[i], c[i]);
    }
  }

  lemma GrowsTransitive(a: Registry, b: Registry, c: Registry)
    requires Grows(a, b) && Grows(b, c)
    ensures Grows(a, c)
  {
  }

  lemma PullsTransitive(a: map<PullKey, Pull>, b: map<PullKey, Pull>, c: map<PullKey, Pull>)
    requires PullsEvolve(a, b) && PullsEvolve(b, c)
    ensures PullsEvolve(a, c)
  {
  }

  lemma EvolvesTransitive(a: State, b: State, c: State)
    requires Evolves(a, b) && Evolves(b, c)
    ensures Evolves(a, c)
  {
    hide Grows; hide RunsEvolve; hide PullsEvolve;
    RunsTransitive(a.world.ci.runs, b.world.ci.runs, c.world.ci.runs);
    GrowsTransitive(a.world.registry, b.world.registry, c.world.registry);
    PullsTransitive(a.world.pulls, b.world.pulls, c.world.pulls);
  }

  lemma EvolvesWith(s: State, s': State)
    requires WorldEvolves(s.world, s'.world) && Stamped(s.world, s'.world) && s'.sent == s.sent
             && s'.initial == s.initial
    ensures Evolves(s, s')
  {
    hide WorldEvolves; hide Stamped;
  }

  // Registry and log change together, counted.
  lemma RegistryEvolves(w: World, reg: Registry, log: Log)
    requires Grows(w.registry, reg) && w.log.events <= log.events
    ensures WorldEvolves(w, w.(registry := reg, log := log, mutations := w.mutations + 1))
    ensures Stamped(w, w.(registry := reg, log := log, mutations := w.mutations + 1))
  {
    hide Grows;
  }

  // Pull requests change, counted or not.
  lemma PullsEvolveWorld(w: World, pulls: map<PullKey, Pull>, mutations: nat)
    requires PullsEvolve(w.pulls, pulls)
             && (mutations > w.mutations || (mutations == w.mutations && pulls.Keys == w.pulls.Keys))
    ensures WorldEvolves(w, w.(pulls := pulls, mutations := mutations))
            && Stamped(w, w.(pulls := pulls, mutations := mutations))
  {
    GrowsReflexive(w.registry);
    hide Grows; hide PullsEvolve;
    assert |pulls.Keys| == |pulls| && |w.pulls.Keys| == |w.pulls|;
  }

  lemma UnchangedEvolves(w: World)
    ensures WorldEvolves(w, w) && Stamped(w, w)
  {
    GrowsReflexive(w.registry);
    hide Grows;
  }

  lemma CreateAppEvolves(c: Casing, w: World, app: App, keyOk: bool)
    requires RegistryOk(c, w.registry)
    ensures var w' := CreateApp(w, app, keyOk).world; WorldEvolves(w, w') && Stamped(w, w')
  {
    UnchangedEvolves(w);
    CreateAppKeepsRegistry(c, w, app, keyOk);
    hide RegistryOk; hide WorldEvolves; hide Stamped; hide Grows;
    if CreateApp(w, app, keyOk).status == 201 {
      RegistryEvolves(w, CreateApp(w, app, keyOk).world.registry, w.log);
    }
  }

  lemma CreateInstallationEvolves(c: Casing, w: World, input: InstallationInput)
    requires RegistryOk(c, w.registry)
    ensures var w' := CreateInstallation(w, input).world; WorldEvolves(w, w') && Stamped(w, w')
  {
    UnchangedEvolves(w);
    CreateInstallationKeepsRegistry(c, w, input);
    hide RegistryOk; hide WorldEvolves; hide Stamped; hide Grows; hide PermissionsValid; hide OwnerValid;
    if CreateInstallation(w, input).status == 201 {
      RegistryEvolves(w, CreateInstallation(w, input).world.registry, CreateInstallation(w, input).world.log);
    }
  }

  lemma ConfigureEvolves(c: Casing, w: World, repo: int, workflow: Workflow, refOk: bool)
    requires RegistryOk(c, w.registry)
    ensures var w' := ConfigureWorkflow(w, repo, workflow, refOk).world; WorldEvolves(w, w') && Stamped(w, w')
  {
    UnchangedEvolves(w);
    ConfigureKeepsRegistry(c, w, repo, workflow, refOk);
    hide RegistryOk; hide WorldEvolves; hide Stamped; hide Grows;
    if ConfigureWorkflow(w, repo, workflow, refOk).status == 201 {
      RegistryEvolves(w, ConfigureWorkflow(w, repo, workflow, refOk).world.registry, w.log);
    }
  }

  lemma ControlEvolves(c: Casing, s: State, l: ControlLabel)
    requires Invariant(c, s)
    ensures Evolves(s, ControlStep(c, s, l))
  {
    RegistryFact(c, s);
    if l.AddRepository? {
      AddRepositoryEvolves(c, s, l);
    } else {
      ControlWorldEvolves(c, s, l);
      SettingFrame(c, s, l);
      EvolvesWith(s, ControlStep(c, s, l));
    }
  }

  lemma ControlWorldEvolves(c: Casing, s: State, l: ControlLabel)
    requires RegistryOk(c, s.world.registry) && !l.AddRepository?
    requires s.drafting.Some? ==> s.drafting.value.key !in s.world.pulls
    ensures var w' := ControlStep(c, s, l).world; WorldEvolves(s.world, w') && Stamped(s.world, w')
  {
    UnchangedEvolves(s.world);
    hide RegistryOk; hide WorldEvolves; hide Stamped;
    hide CreateApp; hide CreateInstallation; hide FinishPull; hide ChangePullState; hide AdvanceTime;
    hide ConfigureWorkflow; hide CheckPull;
    match l
    case AddApp(app, keyOk) => CreateAppEvolves(c, s.world, app, keyOk);
    case AddInstallation(input) => CreateInstallationEvolves(c, s.world, input);
    case ClosePull => ClosePullEvolves(s);
    case Configure(repo, workflow, refOk) => ConfigureEvolves(c, s.world, repo, workflow, refOk);
    case SetPullState(key, state) => SetPullStateEvolves(s.world, key, state);
    case Advance(duration) => AdvanceEvolves(s.world, duration);
    case OpenPull(_) =>
    case Unsupport(verb, path) => UnsupportedEvolves(s.world, verb, path);
  }

  lemma RegistryFact(c: Casing, s: State)
    requires Invariant(c, s)
    ensures RegistryOk(c, s.world.registry)
    ensures s.initial.Keys == s.world.registry.repositories.Keys
    ensures s.drafting.Some? ==> s.drafting.value.key !in s.world.pulls
  {
  }

  lemma UnsupportedEvolves(w: World, verb: string, path: string)
    ensures WorldEvolves(w, RecordUnsupported(w, verb, path)) && Stamped(w, RecordUnsupported(w, verb, path))
  {
    GrowsReflexive(w.registry);
    hide Grows;
  }

  lemma AdvanceEvolves(w: World, duration: Option<int>)
    ensures WorldEvolves(w, AdvanceTime(w, duration).world) && Stamped(w, AdvanceTime(w, duration).world)
  {
    GrowsReflexive(w.registry);
    hide Grows;
  }

  lemma SetPullStateEvolves(w: World, key: PullKey, state: string)
    ensures WorldEvolves(w, ChangePullState(w, key, state).world) && Stamped(w, ChangePullState(w, key, state).world)
  {
    UnchangedEvolves(w);
    var done := ChangePullState(w, key, state);
    if done.status == 200 {
      PullsEvolveWorld(w, done.world.pulls, done.world.mutations);
    }
  }

  lemma AddRepositoryEvolves(c: Casing, s: State, l: ControlLabel)
    requires RegistryOk(c, s.world.registry) && s.initial.Keys == s.world.registry.repositories.Keys && l.AddRepository?
    ensures Evolves(s, AddRepositoryStep(c, s, l))
  {
    AddRepositoryStepIs(c, s, l);
    EvolvesReflexive(s);
    hide *;
    if AddRepositoryStep(c, s, l) != s {
      CreateRepositoryEvolves(c, s.world, l.repository, l.initOk, l.configOk);
      CreatedIsNew(c, s.world, l.repository, l.initOk, l.configOk);
      EvolvesWithInitial(s, AddRepositoryStep(c, s, l), l.repository.id, Base(0, 0, Reading(l.found)));
    }
  }

  lemma AddRepositoryStepIs(c: Casing, s: State, l: ControlLabel)
    requires l.AddRepository?
    ensures var s' := AddRepositoryStep(c, s, l);
            var done := CreateRepository(c, s.world, l.repository, l.initOk, l.configOk);
            s' == s || (done.status == 201 && s'.world == done.world && s'.sent == s.sent
                        && s'.initial == s.initial[l.repository.id := Base(0, 0, Reading(l.found))])
  {
    hide CreateRepository; hide GitRefs; hide Reading;
  }

  lemma EvolvesWithInitial(s: State, s': State, id: int, base: Base)
    requires WorldEvolves(s.world, s'.world) && Stamped(s.world, s'.world)
    requires s'.sent == s.sent && s'.initial == s.initial[id := base] && id !in s.initial
    ensures Evolves(s, s')
  {
    hide WorldEvolves; hide Stamped;
  }

  lemma CreatedIsNew(c: Casing, w: World, input: RepositoryInput, initOk: bool, configOk: bool)
    requires CreateRepository(c, w, input, initOk, configOk).status == 201
    ensures input.id !in w.registry.repositories
  {
    hide NameTaken; hide RepoName; hide ValidPathComponent;
  }

  lemma CreateRepositoryEvolves(c: Casing, w: World, input: RepositoryInput, initOk: bool, configOk: bool)
    requires RegistryOk(c, w.registry)
    ensures var w' := CreateRepository(c, w, input, initOk, configOk).world; WorldEvolves(w, w') && Stamped(w, w')
  {
    CreateRepositoryKeepsRegistry(c, w, input, initOk, configOk);
    UnchangedEvolves(w);
    var done := CreateRepository(c, w, input, initOk, configOk);
    hide RegistryOk; hide Grows; hide NameTaken; hide WorldEvolves; hide Stamped; hide RegisterRepository;
    hide RepoName; hide ValidPathComponent;
    if done.status == 201 {
      RegistryEvolves(w, done.world.registry, done.world.log);
    }
  }

  lemma ClosePullEvolves(s: State)
    requires s.drafting.Some? ==> s.drafting.value.key !in s.world.pulls
    ensures s.drafting.Some? ==>
              var w' := FinishPull(s.world, s.drafting.value, GitOf(s, s.drafting.value.key.repositoryID)).world;
              WorldEvolves(s.world, w') && Stamped(s.world, w')
  {
    UnchangedEvolves(s.world);
    if s.drafting.Some? {
      var done := FinishPull(s.world, s.drafting.value, GitOf(s, s.drafting.value.key.repositoryID));
      if done.status == 201 {
        PullsEvolveWorld(s.world, done.world.pulls, done.world.mutations);
      }
    }
  }

  lemma MintEvolves(c: Casing, w: World, appID: int, request: TokenRequest, value: string)
    requires value !in w.tokens
    ensures var w' := CreateInstallationToken(c, w, appID, request, value).world; WorldEvolves(w, w') && Stamped(w, w')
  {
    GrowsReflexive(w.registry);
    hide Grows; hide SelectRepositories; hide SelectPermissions; hide RunsEvolve; hide PullsEvolve;
    assert RunsEvolve(w.ci.runs, w.ci.runs) && PullsEvolve(w.pulls, w.pulls) by { UnchangedEvolves(w); }
  }

  lemma CancelEvolves(c: Casing, w: World, r: Cancellation, delivered: bool)
    ensures var w' := CancelRun(c, w, r.token, r.owner, r.name, r.runID, delivered).world;
            WorldEvolves(w, w') && Stamped(w, w')
  {
    UnchangedEvolves(w);
    var done := CancelRun(c, w, r.token, r.owner, r.name, r.runID, delivered);
    var k := KeepsPublic.CancelHasEffect(c, w, r.token, r.owner, r.name, r.runID, delivered);
    if done.status == 202 {
      CancelCounted(c, w, r, delivered);
      CancelledRuns(w.ci, done.world.ci, k);
    }
    hide RunsEvolve; hide Grows; hide CancelRun; hide PullsEvolve; hide TokensEvolve;
  }

  lemma CancelCounted(c: Casing, w: World, r: Cancellation, delivered: bool)
    requires CancelRun(c, w, r.token, r.owner, r.name, r.runID, delivered).status == 202
    ensures CancelRun(c, w, r.token, r.owner, r.name, r.runID, delivered).world.mutations == w.mutations + 1
  {
  }

  lemma CancelledRuns(ci: Ci, ci': Ci, k: nat)
    requires KeepsPublic.CancelEffect(ci, ci', k) && ci.runs[k].status != Completed
    ensures RunsEvolve(ci.runs, ci'.runs)
  {
  }

  lemma PublicEvolves(c: Casing, s: State, l: PublicLabel)
    ensures Evolves(s, PublicStep(c, s, l))
  {
    UnchangedEvolves(s.world);
    PublicFrame(c, s, l);
    hide WorldEvolves; hide Stamped; hide Evolves; hide CreateInstallationToken; hide CancelRun;
    match l
    case MintToken(id, value) =>
      if id in s.mints && s.mints[id].accepted && value !in s.world.tokens {
        MintEvolves(c, s.world, s.mints[id].appID, s.mints[id].request, value);
      }
      EvolvesWith(s, PublicStep(c, s, l));
    case Cancel(id, delivered) =>
      if id in s.cancels {
        CancelEvolves(c, s.world, s.cancels[id], delivered);
      }
      EvolvesWith(s, PublicStep(c, s, l));
    case _ => EvolvesWith(s, PublicStep(c, s, l));
  }

  lemma AnnounceEvolves(w: World, r: Repository, k: nat, run: Run, active: map<int, ActiveRun>, action: string)
    requires k < |w.ci.runs| && RunEvolves(w.ci.runs[k], run)
    ensures WorldEvolves(w, Announce(w, r, k, run, active, action))
            && Stamped(w, Announce(w, r, k, run, active, action))
  {
    GrowsReflexive(w.registry);
    hide Grows;
  }

  // Claims are no part of what evolves.
  lemma ClaimsEvolve(w: World, active: map<int, ActiveRun>)
    ensures WorldEvolves(w, w.(ci := w.ci.(active := active))) && Stamped(w, w.(ci := w.ci.(active := active)))
  {
    UnchangedEvolves(w);
    hide Grows; hide RunsEvolve; hide PullsEvolve; hide TokensEvolve;
  }

  lemma RunStepEvolves(c: Casing, s: State, l: RunLabel)
    requires Invariant(c, s)
    ensures Evolves(s, RunStep(s, l))
  {
    hide *;
    match l
    case StartProcess(id, startOk) => StartEvolves(c, s, id, startOk);
    case FinishProcess(id, exitZero, logs) => FinishEvolves(c, s, id, exitZero, logs);
    case _ => ClaimsAndTransitionsEvolve(s, l);
  }

  lemma ClaimsAndTransitionsEvolve(s: State, l: RunLabel)
    requires !l.StartProcess? && !l.FinishProcess?
    ensures Evolves(s, RunStep(s, l))
  {
    EvolvesReflexive(s);
    hide WorldEvolves; hide Stamped; hide FindRun; hide CheckClaim; hide TransitionRun;
    match l
    case Transition(runID, wanted, conclusion) => TransitionEvolves(s.world, runID, wanted, conclusion);
    case ClaimRun(id, runID) => ClaimsEvolve(s.world, RunStep(s, l).world.ci.active);
    case Abandon(id) => ClaimsEvolve(s.world, RunStep(s, l).world.ci.active);
    case StopProcesses =>
  }

  lemma StartEvolves(c: Casing, s: State, id: int, startOk: bool)
    requires Invariant(c, s)
    ensures Evolves(s, RunStep(s, StartProcess(id, startOk)))
  {
    hide Invariant; hide WorldEvolves; hide Stamped; hide Evolves; hide StartRun; hide RunStep;
    if id in s.executors && s.executors[id].Preparing? {
      KeepsRun.ExecutorsPhase(c, s, id);
      StartRunEvolves(s.world, s.executors[id].repository, s.executors[id].index, id, startOk);
      StartStepIs(s, id, startOk);
      EvolvesWith(s, RunStep(s, StartProcess(id, startOk)));
    } else {
      IdleRunStep(s, StartProcess(id, startOk));
      EvolvesReflexive(s);
    }
  }

  lemma IdleRunStep(s: State, l: RunLabel)
    requires (l.StartProcess? && !(l.id in s.executors && s.executors[l.id].Preparing?))
             || (l.FinishProcess? && !(l.id in s.executors && s.executors[l.id].Running?))
    ensures RunStep(s, l) == s
  {
  }

  lemma StartStepIs(s: State, id: int, startOk: bool)
    requires id in s.executors && s.executors[id].Preparing? && s.executors[id].index < |s.world.ci.runs|
    ensures var s' := RunStep(s, StartProcess(id, startOk));
            && s'.world == StartRun(s.world, s.executors[id].repository, s.executors[id].index, id, startOk).world
            && s'.sent == s.sent && s'.initial == s.initial
  {
    hide StartRun;
  }

  lemma StartRunEvolves(w: World, r: Repository, k: nat, id: int, startOk: bool)
    requires k < |w.ci.runs| && w.ci.runs[k].status == Queued
    ensures var w' := StartRun(w, r, k, id, startOk).world; WorldEvolves(w, w') && Stamped(w, w')
  {
    var run := w.ci.runs[k];
    hide WorldEvolves; hide Stamped; hide Announce;
    AnnounceEvolves(w, r, k, run.(status := Completed, conclusion := "cancelled"), w.ci.active - {run.id}, "completed");
    AnnounceEvolves(w, r, k, run.(status := InProgress), w.ci.active[run.id := ActiveRun(Some(id), false)],
                    "in_progress");
    ClaimsEvolve(w, w.ci.active - {run.id});
  }

  lemma FinishEvolves(c: Casing, s: State, id: int, exitZero: bool, logs: string)
    requires Invariant(c, s)
    ensures Evolves(s, RunStep(s, FinishProcess(id, exitZero, logs)))
  {
    hide Invariant; hide WorldEvolves; hide Stamped; hide Evolves; hide FinishRun; hide RunStep;
    if id in s.executors && s.executors[id].Running? {
      KeepsRun.ExecutorsPhase(c, s, id);
      FinishRunEvolves(s.world, s.executors[id].repository, s.executors[id].index, exitZero, logs);
      FinishStepIs(s, id, exitZero, logs);
      EvolvesWith(s, RunStep(s, FinishProcess(id, exitZero, logs)));
    } else {
      IdleRunStep(s, FinishProcess(id, exitZero, logs));
      EvolvesReflexive(s);
    }
  }

  lemma FinishStepIs(s: State, id: int, exitZero: bool, logs: string)
    requires id in s.executors && s.executors[id].Running? && s.executors[id].index < |s.world.ci.runs|
    ensures var s' := RunStep(s, FinishProcess(id, exitZero, logs));
            && s'.world == FinishRun(s.world, s.executors[id].repository, s.executors[id].index, exitZero, logs).world
            && s'.sent == s.sent && s'.initial == s.initial
  {
    hide FinishRun;
  }

  lemma FinishRunEvolves(w: World, r: Repository, k: nat, exitZero: bool, logs: string)
    requires k < |w.ci.runs| && w.ci.runs[k].status == InProgress
    ensures var w' := FinishRun(w, r, k, exitZero, logs).world; WorldEvolves(w, w') && Stamped(w, w')
  {
    var run := w.ci.runs[k];
    var signalled := run.id in w.ci.active && w.ci.active[run.id].cancellationSignalled;
    hide WorldEvolves; hide Stamped; hide Announce;
    AnnounceEvolves(w, r, k, run.(status := Completed, logs := logs, conclusion := ConclusionOf(signalled, exitZero)),
                    w.ci.active - {run.id}, "completed");
  }

  lemma TransitionEvolves(w: World, runID: int, wanted: WantedStatus, conclusion: string)
    ensures var w' := TransitionRun(w, runID, wanted, conclusion).world; WorldEvolves(w, w') && Stamped(w, w')
  {
    UnchangedEvolves(w);
    var k := FindRun(w.ci.runs, runID);
    hide FindRun; hide WorldEvolves; hide Stamped; hide Announce;
    if TransitionRun(w, runID, wanted, conclusion).status == 200 {
      var run := w.ci.runs[k].(status := wanted.status, conclusion := conclusion);
      AnnounceEvolves(w, RepositoryOf(w.registry, run.repositoryID), k, run, w.ci.active,
                      TransitionAction(w.ci.runs[k], wanted, conclusion).value);
    }
  }

  lemma DeliveryEvolves(s: State, l: DeliveryLabel)
    ensures Evolves(s, DeliveryStep(s, l))
  {
    DeliveryStepIs(s, l);
    EvolvesReflexive(s);
    hide *;
    match l
    case Duplicate(guid) =>
      DuplicateEvolves(s.world, guid);
      EvolvesWith(s, DeliveryStep(s, l));
    case LogDelivery(id) =>
      if id in s.deliveries && s.deliveries[id].Answered? {
        AttemptEvolves(s.world, s.deliveries[id].attempt);
        EvolvesWith(s, DeliveryStep(s, l));
      }
    case _ => EvolvesByPosts(s, DeliveryStep(s, l));
  }

  lemma EvolvesByPosts(s: State, s': State)
    requires s'.world == s.world && s.sent <= s'.sent && s'.initial == s.initial
    ensures Evolves(s, s')
  {
    UnchangedEvolves(s.world);
    hide WorldEvolves; hide Stamped;
  }

  lemma DeliveryStepIs(s: State, l: DeliveryLabel)
    ensures var s' := DeliveryStep(s, l);
            && s'.initial == s.initial && s.sent <= s'.sent
            && match l
               case Duplicate(guid) => s'.world == DuplicateEvent(s.world, guid).world && s'.sent == s.sent
               case LogDelivery(id) =>
                 if id in s.deliveries && s.deliveries[id].Answered?
                 then s'.world == LogAttempt(s.world, s.deliveries[id].attempt) && s'.sent == s.sent
                 else s' == s
               case _ => s'.world == s.world
  {
    hide DuplicateEvent; hide LogAttempt; hide ReadDelivery; hide AttemptOf; hide PostOf;
  }

  lemma DuplicateEvolves(w: World, guid: string)
    ensures WorldEvolves(w, DuplicateEvent(w, guid).world) && Stamped(w, DuplicateEvent(w, guid).world)
  {
    UnchangedEvolves(w);
    hide Grows; hide RunsEvolve; hide PullsEvolve; hide TokensEvolve;
  }

  lemma AttemptEvolves(w: World, attempt: Attempt)
    ensures WorldEvolves(w, LogAttempt(w, attempt)) && Stamped(w, LogAttempt(w, attempt))
  {
    UnchangedEvolves(w);
    hide Grows; hide RunsEvolve; hide PullsEvolve; hide TokensEvolve;
  }

  lemma RecordEvolves(c: Casing, s: State, repo: int, ancestry: Ancestry)
    requires Invariant(c, s) && repo in s.packs && s.packs[repo].Observed?
    ensures var p := s.packs[repo];
            var w' := RecordRefChanges(s.world, p.repository, p.token, p.before, p.after, ancestry);
            WorldEvolves(s.world, w') && Stamped(s.world, w')
  {
    KeepsReceive.PushIsOk(c, s, repo, ancestry);
    KeepsReceive.RecordFacts(c, s);
    hide Invariant; hide PushOk; hide LogOk; hide CiOk; hide WorldEvolves; hide Stamped; hide RecordRefs;
    hide PushedRefs;
    RecordedEvolves(s.world, KeepsReceive.PushOf(s, repo, ancestry));
  }

  lemma RecordedEvolves(w: World, p: Push)
    requires PushOk(p) && LogOk(p.reg, w.log, p.now) && CiOk(p.reg, w.ci, w.log) && p.reg == w.registry
             && p.now == w.now
    ensures var w' := RecordRefChanges(w, p.repository, p.token, p.before, p.after, p.ancestry);
            WorldEvolves(w, w') && Stamped(w, w')
  {
    UnchangedEvolves(w);
    hide Grows; hide PushOk; hide LogOk; hide CiOk; hide PullsEvolve; hide TokensEvolve; hide RecordRefs;
    hide PushedRefs;
    RecordRefsKeep(Recorded(w.log, w.ci), p, PushedRefs(p), |PushedRefs(p)|);
    RecordUnmoved(Recorded(w.log, w.ci), p, PushedRefs(p), |PushedRefs(p)|);
  }

  // A push that moves nothing records nothing.
  lemma {:induction false} RecordUnmoved(s: Recorded, p: Push, refs: seq<string>, k: nat)
    requires k <= |refs|
    ensures (forall ref :: ref in refs ==> !p.Moves(ref)) ==> RecordRefs(s, p, refs, k) == s
  {
    if k > 0 {
      RecordUnmoved(s, p, refs, k - 1);
    }
  }

  lemma PackEvolves(s: State, repo: int, l: ReceiveLabel)
    requires repo in s.packs
    ensures Evolves(s, PackStep(s, repo, s.packs[repo], l))
  {
    PackFrame(s, repo, s.packs[repo], l);
    PackWorldEvolves(s.world, s.packs[repo], l);
    hide *;
    EvolvesWith(s, PackStep(s, repo, s.packs[repo], l));
  }

  lemma PackWorldEvolves(w: World, p: Pack, l: ReceiveLabel)
    ensures WorldEvolves(w, PackWorld(w, p, l)) && Stamped(w, PackWorld(w, p, l))
  {
    UnchangedEvolves(w);
    hide WorldEvolves; hide Stamped; hide RefreshPull; hide RecordObservationError;
    ErrorEvolves(w, p.repository.id);
    if p.Writing? {
      RefreshEvolves(w, p);
    }
  }

  lemma MoveEvolves(c: Casing, s: State, l: ReceiveLabel)
    requires l.MoveRef?
    ensures Evolves(s, ReceiveStep(c, s, l))
  {
    UnchangedEvolves(s.world);
    hide WorldEvolves; hide Stamped; hide GitRef;
  }

  lemma ErrorEvolves(w: World, repo: int)
    ensures WorldEvolves(w, RecordObservationError(w, repo)) && Stamped(w, RecordObservationError(w, repo))
  {
    UnchangedEvolves(w);
    hide Grows; hide RunsEvolve; hide PullsEvolve; hide TokensEvolve;
  }

  lemma RefreshEvolves(w: World, p: Pack)
    requires p.Writing?
    ensures var w' := RefreshPull(w, p.key, p.baseRef, p.headRef, p.baseSHA, p.headSHA);
            WorldEvolves(w, w') && Stamped(w, w')
  {
    var w' := RefreshPull(w, p.key, p.baseRef, p.headRef, p.baseSHA, p.headSHA);
    UnchangedEvolves(w);
    assert w'.pulls.Keys == w.pulls.Keys;
    PullsEvolveWorld(w, w'.pulls, w.mutations);
  }

  lemma ReceiveEvolves(c: Casing, s: State, l: ReceiveLabel)
    requires Invariant(c, s)
    ensures Evolves(s, ReceiveStep(c, s, l))
  {
    EvolvesReflexive(s);
    hide Invariant; hide WorldEvolves; hide Stamped; hide PackStep; hide AuthorizePush; hide RecordRefChanges;
    match l
    case BeginPush(id, raw, owner, name) =>
    case Lock(id) =>
    case RecordPush(repo, ancestry) =>
      if repo in s.packs && s.packs[repo].Observed? {
        RecordEvolves(c, s, repo, ancestry);
      }
    case MoveRef(_, _, _) => MoveEvolves(c, s, l);
    case _ => if l.repo in s.packs { PackEvolves(s, l.repo, l); }
  }

  lemma StepEvolves(c: Casing, s: State, l: Label)
    requires Invariant(c, s)
    ensures Evolves(s, Step(c, s, l))
  {
    EvolvesReflexive(s);
    hide Invariant; hide Evolves; hide ControlStep; hide PublicStep; hide RunStep; hide DeliveryStep; hide ReceiveStep;
    if !(s.drafting.Some? && NeedsLock(l)) {
      match l
      case OnControl(k) => ControlEvolves(c, s, k);
      case OnPublic(p) => PublicEvolves(c, s, p);
      case OnRun(r) => RunStepEvolves(c, s, r);
      case OnDelivery(d) => DeliveryEvolves(s, d);
      case OnReceive(r) => ReceiveEvolves(c, s, r);
    }
  }

  // Whatever happens between two moments of a run, the later world extends the earlier one.
  lemma {:induction false} RunsEvolveStates(c: Casing, s: State, labels: seq<Label>)
    requires Invariant(c, s)
    ensures Evolves(s, Execute(c, s, labels)) && Invariant(c, Execute(c, s, labels))
  {
    EvolvesReflexive(s);
    RunsKeep(c, s, labels);
    hide Invariant; hide Evolves; hide Step;
    if labels != [] {
      var before := Execute(c, s, labels[..|labels| - 1]);
      RunsEvolveStates(c, s, labels[..|labels| - 1]);
      StepEvolves(c, before, labels[|labels| - 1]);
      EvolvesTransitive(s, before, Execute(c, s, labels));
    }
  }
}
