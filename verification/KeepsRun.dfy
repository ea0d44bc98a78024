/** The execution steps and scripted transitions keep the invariant. */
module KeepsRun {
  import opened Text
  import opened Model
  import opened EventLog
  import opened RunRegions
  import opened RegistryProofs
  import opened LogProofs
  import opened RunProofs
  import opened Twin
  import opened Invariants

  // One lawful move of run k, with its event and a new set of claims.
  lemma AnnounceKeeps(c: Casing, s: State, r: Repository, k: nat, run: Run, active: map<int, ActiveRun>, action: string,
                      executors: map<int, Executor>)
    requires Invariant(c, s) && k < |s.world.ci.runs| && Advances(s.world.ci.runs[k], run, action)
    requires r.id in s.world.registry.repositories && s.world.registry.repositories[r.id] == r
    requires r.id == s.world.ci.runs[k].repositoryID
    requires var ci := Announce(s.world, r, k, run, active, action).ci;
             ExecutorsOk(s.world.registry, ci, executors) && SignalsOk(ci)
    ensures Invariant(c, s.(world := Announce(s.world, r, k, run, active, action), executors := executors))
  {
    hide TokensOk; hide PushersOk; hide CiOk; hide ExecutorsOk; hide SignalsOk; hide DeliveriesOk; hide SettledOk;
    hide RefsOk; hide HistoryOk; hide PullsOk; hide RefreshesOk; hide DraftOk; hide LogOk; hide RegistryOk;
    var w := Announce(s.world, r, k, run, active, action);
    var e := w.log.events[|s.world.log.events|];
    AnnounceKeepsCi(s.world, r, k, run, active, action);
    AnnouncedAddress(c, s.world, r, k, run, active, action);
    AddedKeepsLog(s.world.registry, s.world.log, w.log, s.world.now, e, |s.world.log.events|);
    GrowsReflexive(s.world.registry);
    GrowthKeepsDeliveries(s.world.registry, s.world.registry, s.world.log, w.log, s.deliveries, s.sent);
    SilentKeepsHistory(s.world.log, w.log, s.world.now, e, s.world.errors, s.git, s.initial, s.packs);
  }

  lemma AnnouncedAddress(c: Casing, w: World, r: Repository, k: nat, run: Run, active: map<int, ActiveRun>,
                         action: string)
    requires k < |w.ci.runs| && RegistryOk(c, w.registry)
    requires r.id in w.registry.repositories && w.registry.repositories[r.id] == r
    ensures var w' := Announce(w, r, k, run, active, action);
            var e := w'.log.events[|w.log.events|];
            Added(w.log, w'.log, w.now, e) && AddressOk(w.registry, e) && e.origin == |w.log.events| && e.body.RunBody?
  {
  }

  // Removing an executor and its claim keeps the rest of the correspondence.
  lemma RetireKeepsExecutors(reg: Registry, ci: Ci, ci': Ci, executors: map<int, Executor>, id: int)
    requires DenseRuns(ci) && ExecutorsOk(reg, ci, executors) && SignalsOk(ci) && id in executors
    requires |ci'.runs| == |ci.runs| && ci'.active == ci.active - {executors[id].runID}
    requires forall i :: 0 <= i < |ci.runs| && i != executors[id].index ==> ci'.runs[i] == ci.runs[i]
    requires SameRun(ci'.runs[executors[id].index], ci.runs[executors[id].index])
    ensures ExecutorsOk(reg, ci', executors - {id}) && SignalsOk(ci')
  {
    var e := executors[id];
    assert ExecutorOk(reg, ci, id, e);
    forall a | a in executors - {id} ensures ExecutorOk(reg, ci', a, executors[a]) {
      assert ExecutorOk(reg, ci, a, executors[a]);
      assert ci.runs[executors[a].index].id == 1001 + executors[a].index && ci.runs[e.index].id == 1001 + e.index;
    }
    forall runID | runID in ci'.active ensures exists a :: a in executors - {id} && executors[a].runID == runID {
      var a :| a in executors && executors[a].runID == runID;
      assert a in executors - {id};
    }
    forall i | 0 <= i < |ci'.runs| && ci'.runs[i].id in ci'.active && ci'.active[ci'.runs[i].id].cancellationSignalled
      ensures ci'.runs[i].cancellationRequested
    {
      assert i != e.index;
    }
  }

  lemma StartKeepsSignals(ci: Ci, ci': Ci, k: nat, id: int)
    requires DenseRuns(ci) && SignalsOk(ci) && k < |ci.runs|
    requires ci'.active == ci.active[ci.runs[k].id := ActiveRun(Some(id), false)]
    requires ci'.runs == ci.runs[k := ci.runs[k].(status := InProgress)]
    ensures SignalsOk(ci')
  {
  }

  lemma StartKeepsExecutors(reg: Registry, ci: Ci, ci': Ci, executors: map<int, Executor>, id: int)
    requires DenseRuns(ci) && ExecutorsOk(reg, ci, executors) && SignalsOk(ci) && id in executors
             && executors[id].Preparing?
    requires |ci'.runs| == |ci.runs| && ci'.active == ci.active[executors[id].runID := ActiveRun(Some(id), false)]
    requires ci'.runs == ci.runs[executors[id].index := ci.runs[executors[id].index].(status := InProgress)]
    ensures ExecutorsOk(reg, ci',
                        executors[id := Running(executors[id].runID, executors[id].index, executors[id].repository)])
    ensures SignalsOk(ci')
  {
    var e := executors[id];
    var executors' := executors[id := Running(e.runID, e.index, e.repository)];
    assert ExecutorOk(reg, ci, id, e);
    StartKeepsSignals(ci, ci', e.index, id);
    hide SignalsOk;
    forall a | a in executors' ensures ExecutorOk(reg, ci', a, executors'[a]) {
      assert ExecutorOk(reg, ci, a, executors[a]);
      assert ci.runs[executors[a].index].id == 1001 + executors[a].index && ci.runs[e.index].id == 1001 + e.index;
    }
    forall runID | runID in ci'.active ensures exists a :: a in executors' && executors'[a].runID == runID {
      var a :| a in executors && executors[a].runID == runID;
      assert a in executors' && executors'[a].runID == runID;
    }
  }

  lemma ClaimKeepsExecutors(reg: Registry, ci: Ci, executors: map<int, Executor>, id: int, e: Executor)
    requires DenseRuns(ci) && ExecutorsOk(reg, ci, executors) && SignalsOk(ci) && id !in executors && e.Preparing?
    requires e.index < |ci.runs| && ci.runs[e.index].id == e.runID && ci.runs[e.index].status == Queued
             && e.runID !in ci.active
    requires ci.runs[e.index].repositoryID in reg.repositories
             && reg.repositories[ci.runs[e.index].repositoryID] == e.repository
    ensures var ci' := ci.(active := ci.active[e.runID := ActiveRun(None, false)]);
            ExecutorsOk(reg, ci', executors[id := e]) && SignalsOk(ci')
  {
    var ci' := ci.(active := ci.active[e.runID := ActiveRun(None, false)]);
    var executors' := executors[id := e];
    forall a | a in executors' ensures ExecutorOk(reg, ci', a, executors'[a]) {
      if a != id {
        assert ExecutorOk(reg, ci, a, executors[a]);
      }
    }
    forall r | r in ci'.active ensures exists a :: a in executors' && executors'[a].runID == r {
      if r == e.runID {
        assert executors'[id].runID == r;
      } else {
        var a :| a in executors && executors[a].runID == r;
        assert executors'[a].runID == r;
      }
    }
  }

  // Claims alone change: the claim, the deferred release, a failed start.
  lemma ClaimsChanged(c: Casing, s: State, active: map<int, ActiveRun>, executors: map<int, Executor>)
    requires Invariant(c, s)
    requires ExecutorsOk(s.world.registry, s.world.ci.(active := active), executors)
             && SignalsOk(s.world.ci.(active := active))
    ensures Invariant(c, s.(world := s.world.(ci := s.world.ci.(active := active)), executors := executors))
  {
    hide TokensOk; hide PushersOk; hide ExecutorsOk; hide SignalsOk; hide DeliveriesOk; hide SettledOk; hide RequestsOk;
    hide Spells; hide RunOk;
    hide RefsOk; hide HistoryOk; hide PullsOk; hide RefreshesOk; hide DraftOk; hide LogOk; hide RegistryOk;
  }

  lemma ClaimKeeps(c: Casing, s: State, id: int, runID: int)
    requires Invariant(c, s)
    ensures Invariant(c, RunStep(s, ClaimRun(id, runID)))
  {
    hide Invariant; hide WorldOk; hide GitOk; hide ExecutorsOk; hide SignalsOk;
    if id !in s.executors && CheckClaim(s.world, runID) == 0 {
      WorldFacts(c, s);
      var s' := RunStep(s, ClaimRun(id, runID));
      ClaimKeepsExecutors(s.world.registry, s.world.ci, s.executors, id, s'.executors[id]);
      ClaimsChanged(c, s, s'.world.ci.active, s'.executors);
    }
  }

  // The claim of a preparing executor is released.
  lemma ReleaseKeeps(c: Casing, s: State, id: int)
    requires Invariant(c, s) && id in s.executors
    ensures Invariant(c, s.(world := Release(s.world, s.executors[id].runID), executors := s.executors - {id}))
  {
    hide GitOk; hide RegistryOk; hide TokensOk; hide PushersOk; hide LogOk; hide SignalsOk; hide DeliveriesOk;
    hide SettledOk;
    hide HistoriesOk; hide RequestsOk;
    assert ExecutorOk(s.world.registry, s.world.ci, id, s.executors[id]);
    RetireKeepsExecutors(s.world.registry, s.world.ci, Release(s.world, s.executors[id].runID).ci, s.executors, id);
    ClaimsChanged(c, s, s.world.ci.active - {s.executors[id].runID}, s.executors - {id});
  }

  // The run of an executor is still the one it claimed, in the state its phase implies.
  lemma ExecutorsRun(c: Casing, s: State, id: int)
    requires Invariant(c, s) && id in s.executors
    ensures ExecutorOk(s.world.registry, s.world.ci, id, s.executors[id])
    ensures RunsOk(s.world.registry, s.world.ci) && ExecutorsOk(s.world.registry, s.world.ci, s.executors)
            && SignalsOk(s.world.ci)
    ensures PartitionOk(s.world.registry)
  {
  }

  // The part of that which progress needs.
  lemma ExecutorsPhase(c: Casing, s: State, id: int)
    requires Invariant(c, s) && id in s.executors
    ensures s.executors[id].index < |s.world.ci.runs|
    ensures s.world.ci.runs[s.executors[id].index].status == if s.executors[id].Preparing? then Queued else InProgress
  {
    ExecutorsRun(c, s, id);
  }

  lemma StartKeeps(c: Casing, s: State, id: int, startOk: bool)
    requires Invariant(c, s)
    ensures Invariant(c, RunStep(s, StartProcess(id, startOk)))
  {
    hide WorldOk; hide GitOk; hide Invariant; hide ExecutorsOk; hide SignalsOk; hide AppendRunEvent;
    if id in s.executors && s.executors[id].Preparing? {
      ExecutorsRun(c, s, id);
      var e := s.executors[id];
      var run := s.world.ci.runs[e.index];
      if run.cancellationRequested {
        var ci' := StartRun(s.world, e.repository, e.index, id, startOk).world.ci;
        RetireKeepsExecutors(s.world.registry, s.world.ci, ci', s.executors, id);
        AnnounceKeeps(c, s, e.repository, e.index, run.(status := Completed, conclusion := "cancelled"),
                      s.world.ci.active - {run.id}, "completed", s.executors - {id});
      } else if !startOk {
        ReleaseKeeps(c, s, id);
      } else {
        var ci' := StartRun(s.world, e.repository, e.index, id, startOk).world.ci;
        StartKeepsExecutors(s.world.registry, s.world.ci, ci', s.executors, id);
        AnnounceKeeps(c, s, e.repository, e.index, run.(status := InProgress),
                      s.world.ci.active[run.id := ActiveRun(Some(id), false)], "in_progress",
                      s.executors[id := Running(e.runID, e.index, e.repository)]);
      }
    }
  }

  lemma FinishKeeps(c: Casing, s: State, id: int, exitZero: bool, logs: string)
    requires Invariant(c, s)
    ensures Invariant(c, RunStep(s, FinishProcess(id, exitZero, logs)))
  {
    hide WorldOk; hide GitOk; hide Invariant; hide ExecutorsOk; hide SignalsOk; hide AppendRunEvent;
    if id in s.executors && s.executors[id].Running? {
      ExecutorsRun(c, s, id);
      var e := s.executors[id];
      var w' := FinishRun(s.world, e.repository, e.index, exitZero, logs).world;
      RetireKeepsExecutors(s.world.registry, s.world.ci, w'.ci, s.executors, id);
      AnnounceKeeps(c, s, e.repository, e.index, w'.ci.runs[e.index], w'.ci.active, "completed", s.executors - {id});
    }
  }

  // A scripted transition touches no claimed run.
  lemma TransitionKeepsExecutors(reg: Registry, ci: Ci, ci': Ci, executors: map<int, Executor>, k: nat)
    requires DenseRuns(ci) && ExecutorsOk(reg, ci, executors) && SignalsOk(ci) && k < |ci.runs|
             && ci.runs[k].id !in ci.active
    requires |ci'.runs| == |ci.runs| && ci'.active == ci.active && SameRun(ci'.runs[k], ci.runs[k])
    requires forall i :: 0 <= i < |ci.runs| && i != k ==> ci'.runs[i] == ci.runs[i]
    ensures ExecutorsOk(reg, ci', executors) && SignalsOk(ci')
  {
    forall a | a in executors ensures ExecutorOk(reg, ci', a, executors[a]) {
      assert ExecutorOk(reg, ci, a, executors[a]);
      assert executors[a].index != k;
    }
  }

  lemma WorldFacts(c: Casing, s: State)
    requires Invariant(c, s)
    ensures RunsOk(s.world.registry, s.world.ci) && ExecutorsOk(s.world.registry, s.world.ci, s.executors)
            && SignalsOk(s.world.ci)
    ensures PartitionOk(s.world.registry)
  {
  }

  lemma TransitionKeeps(c: Casing, s: State, runID: int, wanted: WantedStatus, conclusion: string)
    requires Invariant(c, s)
    ensures Invariant(c, RunStep(s, Transition(runID, wanted, conclusion)))
  {
    TransitionIs(s.world, runID, wanted, conclusion);
    TransitionStepIs(s, runID, wanted, conclusion);
    hide WorldOk; hide GitOk; hide Invariant; hide ExecutorsOk; hide SignalsOk; hide Announce; hide TransitionRun;
    hide TransitionAction;
    hide FindRun; hide RunStep; hide Advances;
    var done := TransitionRun(s.world, runID, wanted, conclusion);
    if done.status == 200 {
      WorldFacts(c, s);
      var k := FindRun(s.world.ci.runs, runID);
      var run := TransitionedRun(s.world, k, wanted, conclusion);
      assert RunOk(s.world.registry, s.world.ci.runs[k]);
      AnnouncedCi(s.world, RepositoryOf(s.world.registry, run.repositoryID), k, run, s.world.ci.active,
                  TransitionAction(s.world.ci.runs[k], wanted, conclusion).value);
      TransitionKeepsExecutors(s.world.registry, s.world.ci, done.world.ci, s.executors, k);
      AnnounceKeeps(c, s, RepositoryOf(s.world.registry, run.repositoryID), k, run, s.world.ci.active,
                    TransitionAction(s.world.ci.runs[k], wanted, conclusion).value, s.executors);
      assert s.(executors := s.executors) == s;
    }
  }

  function TransitionedRun(w: World, k: nat, wanted: WantedStatus, conclusion: string): Run
    requires k < |w.ci.runs| && wanted.Wanted?
  {
    w.ci.runs[k].(status := wanted.status, conclusion := conclusion)
  }

  // An accepted transition announces a lawful move of an unclaimed run; a refused one does nothing.
  lemma TransitionIs(w: World, runID: int, wanted: WantedStatus, conclusion: string)
    ensures var done := TransitionRun(w, runID, wanted, conclusion);
            var k := FindRun(w.ci.runs, runID);
            if done.status == 200 then
              && k < |w.ci.runs| && w.ci.runs[k].id == runID && runID !in w.ci.active && wanted.Wanted?
              && var action := TransitionAction(w.ci.runs[k], wanted, conclusion);
                 var run := TransitionedRun(w, k, wanted, conclusion);
                 && action.Some? && Advances(w.ci.runs[k], run, action.value) && SameRun(run, w.ci.runs[k])
                 && done.world == Announce(w, RepositoryOf(w.registry, run.repositoryID), k, run, w.ci.active,
                                           action.value)
            else done.world == w
  {
    hide FindRun; hide Announce;
  }

  lemma TransitionStepIs(s: State, runID: int, wanted: WantedStatus, conclusion: string)
    ensures RunStep(s, Transition(runID, wanted, conclusion))
            == s.(world := TransitionRun(s.world, runID, wanted, conclusion).world)
  {
    hide TransitionRun;
  }

  lemma AnnouncedCi(w: World, r: Repository, k: nat, run: Run, active: map<int, ActiveRun>, action: string)
    requires k < |w.ci.runs|
    ensures Announce(w, r, k, run, active, action).ci == w.ci.(runs := w.ci.runs[k := run], active := active)
  {
    hide AppendRunEvent;
  }

  lemma RunKeeps(c: Casing, s: State, l: RunLabel)
    requires Invariant(c, s)
    ensures Invariant(c, RunStep(s, l))
  {
    hide Invariant; hide CheckClaim; hide FindRun; hide StartRun; hide FinishRun; hide TransitionRun; hide Claim;
    match l
    case ClaimRun(id, runID) => ClaimKeeps(c, s, id, runID);
    case Abandon(id) =>
      if id in s.executors && s.executors[id].Preparing? {
        ReleaseKeeps(c, s, id);
      }
    case StartProcess(id, startOk) => StartKeeps(c, s, id, startOk);
    case StopProcesses =>
    case FinishProcess(id, exitZero, logs) => FinishKeeps(c, s, id, exitZero, logs);
    case Transition(runID, wanted, conclusion) => TransitionKeeps(c, s, runID, wanted, conclusion);
  }
}
