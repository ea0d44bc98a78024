/** The REST steps keep the invariant. */
module KeepsPublic {
  import opened Text
  import opened Model
  import opened EventLog
  import opened ControlRegions
  import opened PublicRegions
  import opened RegistryProofs
  import opened LogProofs
  import opened RunProofs
  import opened Twin
  import opened Invariants
  import opened Frames

  // Issued scopes stay within the installation.
  lemma MintKeepsTokens(c: Casing, w: World, appID: int, request: TokenRequest, value: string)
    requires RegistryOk(c, w.registry) && TokensOk(w.registry, w.tokens, w.now)
    ensures TokensOk(w.registry, CreateInstallationToken(c, w, appID, request, value).world.tokens, w.now)
  {
    var done := CreateInstallationToken(c, w, appID, request, value);
    if done.status == 201 {
      var t := done.world.tokens[value];
      assert PermissionsValid(w.registry.installs[request.installationID].permissions);
      assert TokenOk(w.registry, t);
    }
  }

  lemma MintKeeps(c: Casing, s: State, appID: int, request: TokenRequest, value: string, mints: map<int, Mint>)
    requires Invariant(c, s)
    ensures Invariant(c, s.(world := CreateInstallationToken(c, s.world, appID, request, value).world, mints := mints))
  {
    hide RegistryOk; hide TokensOk; hide PushersOk; hide LogOk; hide CiOk; hide ExecutorsOk; hide SignalsOk;
    hide DeliveriesOk; hide SettledOk;
    hide GitOk;
    MintKeepsTokens(c, s.world, appID, request, value);
    MintKeepsGit(c, s, appID, request, value, mints);
  }

  lemma MintKeepsGit(c: Casing, s: State, appID: int, request: TokenRequest, value: string, mints: map<int, Mint>)
    requires GitOk(s)
    ensures GitOk(s.(world := CreateInstallationToken(c, s.world, appID, request, value).world, mints := mints))
  {
    hide RefsOk; hide HistoryOk; hide PullsOk; hide RefreshesOk; hide DraftOk;
  }

  // A cancellation marks one run and may mark its claim; nothing else about it changes.
  ghost predicate CancelEffect(ci: Ci, ci': Ci, k: nat) {
    && k < |ci.runs| && ci'.nextRunID == ci.nextRunID
    && ci'.runs == ci.runs[k := ci.runs[k].(cancellationRequested := true)]
    && (ci'.active == ci.active
        || (ci.runs[k].id in ci.active
            && ci'.active == ci.active[ci.runs[k].id := ci.active[ci.runs[k].id].(cancellationSignalled := true)]
            && ci.active[ci.runs[k].id].command.Some?))
  }

  lemma CancelEffectKeepsCi(reg: Registry, ci: Ci, ci': Ci, k: nat, log: Log)
    requires CiOk(reg, ci, log) && CancelEffect(ci, ci', k)
    ensures CiOk(reg, ci', log)
  {
    assert RunOk(reg, ci.runs[k]);
    assert Spells(RunHistory(log.events, ci.runs[k].id), ci.runs[k]);
  }

  lemma CancelEffectKeepsExecutors(reg: Registry, ci: Ci, ci': Ci, k: nat, executors: map<int, Executor>)
    requires DenseRuns(ci) && ExecutorsOk(reg, ci, executors) && SignalsOk(ci) && CancelEffect(ci, ci', k)
    ensures ExecutorsOk(reg, ci', executors) && SignalsOk(ci')
  {
    forall id | id in executors ensures ExecutorOk(reg, ci', id, executors[id]) {
      assert ExecutorOk(reg, ci, id, executors[id]);
    }
    forall i | 0 <= i < |ci'.runs| && ci'.runs[i].id in ci'.active && ci'.active[ci'.runs[i].id].cancellationSignalled
      ensures ci'.runs[i].cancellationRequested
    {
      assert ci.runs[i].id == 1001 + i && ci.runs[k].id == 1001 + k;
    }
  }

  lemma CancelHasEffect(c: Casing, w: World, token: Token, owner: string, name: string, runID: int, delivered: bool)
    returns (k: nat)
    ensures var done := CancelRun(c, w, token, owner, name, runID, delivered);
            && done.world == w.(ci := done.world.ci, mutations := done.world.mutations)
            && if done.status == 202 then CancelEffect(w.ci, done.world.ci, k) && w.ci.runs[k].status != Completed
               else done.world == w
  {
    var key := RepoName(c, owner, name);
    k := if key in w.registry.repoNames then FindRunIn(w.ci.runs, runID, w.registry.repoNames[key]) else 0;
  }

  lemma CancelKeeps(c: Casing, s: State, r: Cancellation, delivered: bool, cancels: map<int, Cancellation>)
    requires Invariant(c, s)
    ensures Invariant(c, s.(world := CancelRun(c, s.world, r.token, r.owner, r.name, r.runID, delivered).world,
                            cancels := cancels))
  {
    hide RegistryOk; hide TokensOk; hide PushersOk; hide LogOk; hide ExecutorsOk; hide SignalsOk; hide DeliveriesOk;
    hide SettledOk;
    hide RefsOk; hide HistoryOk; hide PullsOk; hide RefreshesOk; hide DraftOk; hide HistoriesOk; hide RequestsOk;
    hide CancelRun;
    var done := CancelRun(c, s.world, r.token, r.owner, r.name, r.runID, delivered);
    var k := CancelHasEffect(c, s.world, r.token, r.owner, r.name, r.runID, delivered);
    if done.status == 202 {
      CancelEffectKeepsCi(s.world.registry, s.world.ci, done.world.ci, k, s.world.log);
      CancelEffectKeepsExecutors(s.world.registry, s.world.ci, done.world.ci, k, s.executors);
    }
  }

  // Requests on their way are no part of the invariant.
  lemma RequestsMoveFreely(c: Casing, s: State, mints: map<int, Mint>, cancels: map<int, Cancellation>,
                           gets: map<int, Get>, shown: seq<Answer>)
    requires Invariant(c, s)
    ensures Invariant(c, s.(mints := mints, cancels := cancels, gets := gets, shown := shown))
  {
    hide RegistryOk; hide TokensOk; hide PushersOk; hide LogOk; hide CiOk; hide ExecutorsOk; hide SignalsOk;
    hide DeliveriesOk; hide SettledOk;
    hide RefsOk; hide HistoryOk; hide PullsOk; hide RefreshesOk; hide DraftOk;
  }

  lemma PublicKeeps(c: Casing, s: State, l: PublicLabel)
    requires Invariant(c, s)
    ensures Invariant(c, PublicStep(c, s, l))
  {
    hide Invariant; hide CancelRun; hide CreateInstallationToken; hide Authenticate; hide JwtAccepted;
    var s' := PublicStep(c, s, l);
    match l
    case MintToken(id, value) =>
      if id in s.mints && s.mints[id].accepted && value !in s.world.tokens {
        MintKeeps(c, s, s.mints[id].appID, s.mints[id].request, value, s.mints - {id});
      }
    case Cancel(id, delivered) =>
      if id in s.cancels {
        CancelKeeps(c, s, s.cancels[id], delivered, s.cancels - {id});
      } else {
        assert s.cancels - {id} == s.cancels;
      }
    case FindIssuer(_, _, _, _, _, _) => RequestsMoveFreely(c, s, s'.mints, s'.cancels, s'.gets, s'.shown);
    case CheckTimes(_) => RequestsMoveFreely(c, s, s'.mints, s'.cancels, s'.gets, s'.shown);
    case BeginCancel(_, _, _, _, _) => RequestsMoveFreely(c, s, s'.mints, s'.cancels, s'.gets, s'.shown);
    case _ =>
      GetFrame(c, s, l);
      hide GetStep;
      RequestsMoveFreely(c, s, s'.mints, s'.cancels, s'.gets, s'.shown);
  }
}
