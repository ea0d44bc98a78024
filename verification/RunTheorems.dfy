/** Workflow runs: the execution protocol, the life of a run, and cancellation, over every
    run of the twin. */
module RunTheorems {
  import opened Text
  import opened Model
  import opened Levels
  import opened EventLog
  import opened PublicRegions
  import opened RunRegions
  import opened RegistryProofs
  import opened LogProofs
  import opened RunProofs
  import opened Twin
  import opened Invariants
  import opened Safety
  import opened Evolution

  lemma CiFacts(c: Casing, s: State)
    requires Reachable(c, s)
    ensures CiOk(s.world.registry, s.world.ci, s.world.log) && ExecutorsOk(s.world.registry, s.world.ci, s.executors)
    ensures SignalsOk(s.world.ci) && DenseOk(s.world.log)
  {
    ReachableOk(c, s);
  }

  // Claims and in-flight executors correspond one to one. A preparing executor's run is queued
  // and its claim has no command; a running executor's run is in progress and its claim has
  // that executor's command. The index captured at the claim still names the claimed run.
  lemma ClaimsMatchExecutors(c: Casing, s: State)
    requires Reachable(c, s)
    ensures forall id :: id in s.executors ==>
              var e := s.executors[id];
              && e.index < |s.world.ci.runs| && s.world.ci.runs[e.index].id == e.runID && e.runID in s.world.ci.active
              && (e.Preparing? ==>
                    s.world.ci.runs[e.index].status == Queued && s.world.ci.active[e.runID] == ActiveRun(None, false))
              && (e.Running? ==>
                    s.world.ci.runs[e.index].status == InProgress && s.world.ci.active[e.runID].command == Some(id))
    ensures forall runID :: runID in s.world.ci.active ==>
              exists id :: id in s.executors && s.executors[id].runID == runID
                && forall other :: other in s.executors && s.executors[other].runID == runID ==> other == id
  {
    CiFacts(c, s);
    forall id | id in s.executors
      ensures ExecutorOk(s.world.registry, s.world.ci, id, s.executors[id])
    {
    }
    forall runID | runID in s.world.ci.active
      ensures exists id :: id in s.executors && s.executors[id].runID == runID
                && forall other :: other in s.executors && s.executors[other].runID == runID ==> other == id
    {
      var id :| id in s.executors && s.executors[id].runID == runID;
      assert forall other :: other in s.executors && s.executors[other].runID == runID ==> other == id;
    }
  }

  // The "no longer queued" refusal of the start region is unreachable.
  lemma StartIsNeverTooLate(c: Casing, s: State, id: int, startOk: bool)
    requires Reachable(c, s) && id in s.executors && s.executors[id].Preparing?
    ensures s.executors[id].index < |s.world.ci.runs|
    ensures StartRun(s.world, s.executors[id].repository, s.executors[id].index, id, startOk).status != 409
  {
    CiFacts(c, s);
    assert ExecutorOk(s.world.registry, s.world.ci, id, s.executors[id]);
  }

  // Giving up a claim removes that claim and leaves every other executor's in place.
  lemma ReleaseIsOwn(c: Casing, s: State, id: int, other: int)
    requires Reachable(c, s) && id in s.executors && s.executors[id].Preparing? && other in s.executors && other != id
    ensures var active := RunStep(s, Abandon(id)).world.ci.active;
            && s.executors[id].runID in s.world.ci.active && s.executors[id].runID !in active
            && s.executors[other].runID in active
            && active[s.executors[other].runID] == s.world.ci.active[s.executors[other].runID]
  {
    CiFacts(c, s);
    assert ExecutorOk(s.world.registry, s.world.ci, id, s.executors[id]);
    assert ExecutorOk(s.world.registry, s.world.ci, other, s.executors[other]);
  }

  // The original events of each run spell requested, optionally in_progress, optionally
  // completed; the last one is the stored status and conclusion, and a conclusion is set
  // exactly when the run is completed.
  lemma RunLife(c: Casing, s: State, i: nat)
    requires Reachable(c, s) && i < |s.world.ci.runs|
    ensures s.world.ci.runs[i].id == 1001 + i
    ensures Spells(RunHistory(s.world.log.events, 1001 + i), s.world.ci.runs[i])
    ensures forall k ::
              0 <= k < |s.world.log.events| && s.world.log.events[k].body.RunBody?
                  && s.world.log.events[k].body.runID == 1001 + i ==>
              s.world.log.events[k].repositoryID == s.world.ci.runs[i].repositoryID
    ensures s.world.ci.runs[i].conclusion != "" <==> s.world.ci.runs[i].status == Completed
  {
    CiFacts(c, s);
    assert RunOk(s.world.registry, s.world.ci.runs[i]);
  }

  // Between any two moments of a run of the twin, a workflow run keeps its identity, never
  // moves backwards, never loses an accepted cancellation, and once completed never changes.
  lemma RunsOnlyAdvance(c: Casing, s: State, labels: seq<Label>, i: nat)
    requires Reachable(c, s) && i < |s.world.ci.runs|
    ensures var s' := Execute(c, s, labels);
            i < |s'.world.ci.runs| && RunEvolves(s.world.ci.runs[i], s'.world.ci.runs[i])
  {
    ReachableOk(c, s);
    RunsEvolveStates(c, s, labels);
  }

  // The events of a run in the list, from its history.
  lemma {:induction false} HistoryPosition(events: seq<Event>, id: int, n: nat) returns (k: nat)
    requires n < |RunHistory(events, id)|
    ensures k < |events| && OriginalRunEvent(events, k, id) && events[k].body == RunHistory(events, id)[n]
  {
    var last := |events| - 1;
    if n < |RunHistory(events[..last], id)| {
      k := HistoryPosition(events[..last], id, n);
    } else {
      k := last;
    }
  }

  // Every run comes from exactly one original push: its one requested event sits right after a
  // push event of the same repository, on the run's branch and commit.
  lemma RunComesFromPush(c: Casing, s: State, i: nat) returns (k: nat)
    requires Reachable(c, s) && i < |s.world.ci.runs|
    ensures var events := s.world.log.events;
            var run := s.world.ci.runs[i];
            && 0 < k < |events| && Requested(events, k) && events[k].body.runID == run.id
            && events[k].repositoryID == run.repositoryID
            && Original(events, k - 1) && events[k - 1].body.PushBody? && events[k - 1].repositoryID == run.repositoryID
            && events[k - 1].body.ref == "refs/heads/" + run.headBranch && events[k - 1].body.after == run.headSHA
            && forall j :: 0 <= j < |events| && Requested(events, j) && events[j].body.runID == run.id ==> j == k
  {
    CiFacts(c, s);
    AddressFacts(c, s);
    var run := s.world.ci.runs[i];
    var h := RunHistory(s.world.log.events, run.id);
    assert Spells(h, run);
    k := HistoryPosition(s.world.log.events, run.id, 0);
    assert AddressOk(s.world.registry, s.world.log.events[k]);
    assert Requested(s.world.log.events, k) && FollowsPush(s.world.log.events, k);
    forall j | 0 <= j < |s.world.log.events| && Requested(s.world.log.events, j)
        && s.world.log.events[j].body.runID == run.id
      ensures j == k
    {
      assert !(j < k) && !(k < j);
    }
  }

  lemma AddressFacts(c: Casing, s: State)
    requires Reachable(c, s)
    ensures AddressesOk(s.world.registry, s.world.log)
  {
    ReachableOk(c, s);
  }

  lemma {:induction false} HistoryGrows(events: seq<Event>, more: seq<Event>, id: int)
    requires events <= more
    ensures RunHistory(events, id) <= RunHistory(more, id)
  {
    if |more| == |events| {
      assert more == events;
    } else {
      assert events <= more[..|more| - 1];
      HistoryGrows(events, more[..|more| - 1], id);
    }
  }

  // A completed run's history is finished: no later step of the twin adds an original event to it.
  lemma CompletedHistoryIsFinal(c: Casing, s: State, labels: seq<Label>, i: nat)
    requires Reachable(c, s) && i < |s.world.ci.runs| && s.world.ci.runs[i].status == Completed
    ensures RunHistory(Execute(c, s, labels).world.log.events, 1001 + i) == RunHistory(s.world.log.events, 1001 + i)
  {
    var s' := Execute(c, s, labels);
    ReachableOnward(c, s, labels);
    RunLife(c, s, i);
    RunsOnlyAdvance(c, s, labels, i);
    LogGrows(c, s, labels);
    hide Reachable; hide Execute; hide RunHistory;
    RunLife(c, s', i);
    HistoryGrows(s.world.log.events, s'.world.log.events, 1001 + i);
    SpellsOnce(RunHistory(s.world.log.events, 1001 + i), RunHistory(s'.world.log.events, 1001 + i), s.world.ci.runs[i]);
  }

  lemma LogGrows(c: Casing, s: State, labels: seq<Label>)
    requires Reachable(c, s)
    ensures s.world.log.events <= Execute(c, s, labels).world.log.events
  {
    ReachableOk(c, s);
    hide Reachable;
    RunsEvolveStates(c, s, labels);
    hide Invariant; hide Grows; hide RunsEvolve; hide PullsEvolve; hide TokensEvolve;
  }

  lemma SpellsOnce(h: seq<Body>, h': seq<Body>, run: Run)
    requires run.status == Completed && Spells(h, run) && Spells(h', run) && h <= h'
    ensures h == h'
  {
    assert h[|h| - 1] == h'[|h| - 1];
  }

  // Run k has ended cancelled without ever being in progress.
  ghost predicate EndedCancelled(s: State, k: nat, runID: int) {
    var h := RunHistory(s.world.log.events, runID);
    && k < |s.world.ci.runs| && s.world.ci.runs[k].id == runID
    && s.world.ci.runs[k].status == Completed && s.world.ci.runs[k].conclusion == "cancelled"
    && |h| == 2 && h[0].RunBody? && h[0].action == "requested"
    && h[1].RunBody? && h[1].action == "completed" && h[1].conclusion == Some("cancelled")
  }

  // A cancellation accepted while an executor prepares decides its run: the start region
  // completes it as cancelled, right after the requested event, and the claim is gone.
  lemma CancelledBeforeStart(c: Casing, s: State, id: int, startOk: bool)
    requires Reachable(c, s) && id in s.executors && s.executors[id].Preparing?
    requires s.executors[id].index < |s.world.ci.runs| && s.world.ci.runs[s.executors[id].index].cancellationRequested
    ensures var s' := RunStep(s, StartProcess(id, startOk));
            && EndedCancelled(s', s.executors[id].index, s.executors[id].runID)
            && s.executors[id].runID !in s'.world.ci.active && id !in s'.executors
  {
    CiFacts(c, s);
    RegistryFacts(c, s);
    hide Reachable;
    var e := s.executors[id];
    assert ExecutorOk(s.world.registry, s.world.ci, id, e);
    var run := s.world.ci.runs[e.index];
    assert e.repository.id == run.repositoryID;
    hide RegistryOk; hide ExecutorsOk; hide SignalsOk;
    CancelledAnnounced(s.world, e.repository, e.index);
    hide CiOk; hide EndedCancelled; hide Announce;
    CancelledStepIs(s, id, startOk);
  }

  lemma CancelledStepIs(s: State, id: int, startOk: bool)
    requires id in s.executors && s.executors[id].Preparing? && s.executors[id].index < |s.world.ci.runs|
    requires var run := s.world.ci.runs[s.executors[id].index]; run.status == Queued && run.cancellationRequested
    ensures var e := s.executors[id];
            var run := s.world.ci.runs[e.index];
            RunStep(s, StartProcess(id, startOk))
            == s.(world := Announce(s.world, e.repository, e.index,
                                    run.(status := Completed, conclusion := "cancelled"),
                                    s.world.ci.active - {run.id}, "completed"),
                  executors := s.executors - {id})
  {
    hide Announce;
  }

  lemma CancelledAnnounced(w: World, r: Repository, k: nat)
    requires k < |w.ci.runs| && CiOk(w.registry, w.ci, w.log) && w.ci.runs[k].status == Queued
             && r.id == w.ci.runs[k].repositoryID
    ensures var run := w.ci.runs[k];
            var w' := Announce(w, r, k, run.(status := Completed, conclusion := "cancelled"), w.ci.active - {run.id},
                               "completed");
            var h := RunHistory(w'.log.events, run.id);
            && k < |w'.ci.runs| && w'.ci.runs[k] == run.(status := Completed, conclusion := "cancelled")
            && w'.ci.active == w.ci.active - {run.id}
            && |h| == 2 && h[0].RunBody? && h[0].action == "requested"
            && h[1].RunBody? && h[1].action == "completed" && h[1].conclusion == Some("cancelled")
  {
    var run := w.ci.runs[k];
    assert Spells(RunHistory(w.log.events, run.id), run);
    AnnouncedHistory(w, r, k, run.(status := Completed, conclusion := "cancelled"), w.ci.active - {run.id}, "completed",
                     k);
    hide CiOk; hide RunHistory;
  }

  // And that is final: whatever is done to the twin afterwards, the run stays cancelled and no
  // in_progress event is ever recorded for it.
  lemma CancelledForever(c: Casing, s: State, id: int, startOk: bool, labels: seq<Label>)
    requires Reachable(c, s) && s.drafting.None? && id in s.executors && s.executors[id].Preparing?
    requires s.executors[id].index < |s.world.ci.runs| && s.world.ci.runs[s.executors[id].index].cancellationRequested
    ensures EndedCancelled(Execute(c, Step(c, s, OnRun(StartProcess(id, startOk))), labels), s.executors[id].index,
                           s.executors[id].runID)
  {
    hide Reachable; hide Execute; hide Step; hide RunStep; hide EndedCancelled;
    StartIsStep(c, s, id, startOk);
    ClaimedRunID(c, s, id);
    CancelledBeforeStart(c, s, id, startOk);
    ReachableNext(c, s, OnRun(StartProcess(id, startOk)));
    var k, s1 := s.executors[id].index, Step(c, s, OnRun(StartProcess(id, startOk)));
    assert EndedCancelled(s1, k, 1001 + k);
    hide *;
    CancelledStays(c, s1, k, labels);
  }

  lemma StartIsStep(c: Casing, s: State, id: int, startOk: bool)
    requires s.drafting.None?
    ensures Step(c, s, OnRun(StartProcess(id, startOk))) == RunStep(s, StartProcess(id, startOk))
  {
    hide RunStep;
  }

  lemma ClaimedRunID(c: Casing, s: State, id: int)
    requires Reachable(c, s) && id in s.executors
    ensures s.executors[id].index < |s.world.ci.runs| && s.executors[id].runID == 1001 + s.executors[id].index
  {
    ClaimsMatchExecutors(c, s);
    hide Reachable;
    RunLife(c, s, s.executors[id].index);
  }

  lemma CancelledStays(c: Casing, s: State, k: nat, labels: seq<Label>)
    requires Reachable(c, s) && EndedCancelled(s, k, 1001 + k)
    ensures EndedCancelled(Execute(c, s, labels), k, 1001 + k)
  {
    hide Reachable; hide Execute; hide RunHistory;
    RunsOnlyAdvance(c, s, labels, k);
    CompletedHistoryIsFinal(c, s, labels, k);
  }

  // An exited process decides its run: a zero exit is a success even after a delivered
  // interrupt, a non-zero exit is a cancellation exactly when an interrupt was delivered, and
  // then a cancellation had been accepted.
  lemma ExitDecides(c: Casing, s: State, id: int, exitZero: bool, logs: string)
    requires Reachable(c, s) && id in s.executors && s.executors[id].Running?
    ensures var k := s.executors[id].index;
            k < |s.world.ci.runs| &&
            var s' := RunStep(s, FinishProcess(id, exitZero, logs));
            var run := s'.world.ci.runs[k];
            && s.executors[id].runID in s.world.ci.active
            && run.status == Completed && run.logs == logs
            && (run.conclusion == "success" <==> exitZero)
            && (run.conclusion == "cancelled"
                <==> !exitZero && s.world.ci.active[s.executors[id].runID].cancellationSignalled)
            && (run.conclusion == "cancelled" ==> run.cancellationRequested)
  {
    CiFacts(c, s);
    assert ExecutorOk(s.world.registry, s.world.ci, id, s.executors[id]);
  }

  // The conditions under which the twin accepts a cancellation, read off the repository table.
  ghost predicate MayCancel(c: Casing, reg: Registry, run: Run, token: Token, owner: string, name: string) {
    && run.repositoryID in token.repositoryIDs && run.repositoryID in reg.repositories
    && c.ToLower(reg.repositories[run.repositoryID].owner) == c.ToLower(owner)
    && c.ToLower(reg.repositories[run.repositoryID].name) == c.ToLower(name)
    && Writes(token, "actions")
  }

  // A cancellation is accepted exactly when its token covers the run's own repository, named
  // by the request, with write access to actions, and the run has not completed. It is then
  // recorded on exactly that run. A completed run is told apart by a conflict; in every other
  // case the run is not found.
  lemma CancellationAccepted(c: Casing, s: State, token: Token, owner: string, name: string, i: nat, delivered: bool)
    requires c.Valid() && Reachable(c, s) && i < |s.world.ci.runs| && '/' !in owner
    ensures var run := s.world.ci.runs[i];
            var done := CancelRun(c, s.world, token, owner, name, 1001 + i, delivered);
            && (done.status == 202
                <==> MayCancel(c, s.world.registry, run, token, owner, name) && run.status != Completed)
            && (done.status == 409
                <==> MayCancel(c, s.world.registry, run, token, owner, name) && run.status == Completed)
            && (done.status != 202 && done.status != 409 ==> done.status == 404)
            && (done.status != 202 ==> done.world == s.world)
            && (done.status == 202 ==>
                  && done.world.ci.runs == s.world.ci.runs[i := run.(cancellationRequested := true)]
                  && done.world == s.world.(ci := s.world.ci.(runs := done.world.ci.runs,
                                                              active := done.world.ci.active),
                                            mutations := s.world.mutations + 1))
  {
    CiFacts(c, s);
    RegistryFacts(c, s);
    IndexAgrees(c, s.world.registry, owner, name, s.world.ci.runs[i].repositoryID);
    hide CiOk; hide ExecutorsOk; hide SignalsOk; hide DenseOk; hide RegistryOk; hide RepoName; hide CancelRun;
    hide MayCancel;
    CancelFinds(c, s.world, token, owner, name, i, delivered);
    MayCancelByIndex(c, s.world.registry, s.world.ci.runs[i], token, owner, name);
  }

  // The name index leads to the run's own repository.
  predicate Leads(c: Casing, reg: Registry, owner: string, name: string, id: int) {
    var key := RepoName(c, owner, name);
    key in reg.repoNames && reg.repoNames[key] == id
  }

  lemma MayCancelByIndex(c: Casing, reg: Registry, run: Run, token: Token, owner: string, name: string)
    requires c.Valid() && RegistryOk(c, reg) && '/' !in owner
    ensures MayCancel(c, reg, run, token, owner, name)
            <==> Leads(c, reg, owner, name, run.repositoryID)
                 && run.repositoryID in token.repositoryIDs && Writes(token, "actions")
  {
    IndexAgrees(c, reg, owner, name, run.repositoryID);
    hide RegistryOk; hide RepoName;
  }

  lemma CancelFinds(c: Casing, w: World, token: Token, owner: string, name: string, i: nat, delivered: bool)
    requires i < |w.ci.runs| && CiOk(w.registry, w.ci, w.log)
    ensures var done := CancelRun(c, w, token, owner, name, 1001 + i, delivered);
            var mayCancel := Leads(c, w.registry, owner, name, w.ci.runs[i].repositoryID)
                             && w.ci.runs[i].repositoryID in token.repositoryIDs && Writes(token, "actions");
            && (done.status == 202 <==> mayCancel && w.ci.runs[i].status != Completed)
            && (done.status == 409 <==> mayCancel && w.ci.runs[i].status == Completed)
            && (done.status != 202 && done.status != 409 ==> done.status == 404)
            && (done.status != 202 ==> done.world == w)
            && (done.status == 202 ==>
                  && done.world.ci.runs == w.ci.runs[i := w.ci.runs[i].(cancellationRequested := true)]
                  && done.world == w.(ci := w.ci.(runs := done.world.ci.runs, active := done.world.ci.active),
                                      mutations := w.mutations + 1))
  {
    FindByRunID(w.ci, i);
    RankMeans(Lookup(token.permissions, "actions"));
    hide HistoriesOk; hide RequestsOk; hide RepoName; hide Interrupt; hide RunOk; hide PermissionRank;
    var key := RepoName(c, owner, name);
    if key in w.registry.repoNames {
      var k := FindRunIn(w.ci.runs, 1001 + i, w.registry.repoNames[key]);
      assert k < |w.ci.runs| ==> w.ci.runs[k].id == 1001 + k;
    }
  }

  lemma RegistryFacts(c: Casing, s: State)
    requires Reachable(c, s)
    ensures RegistryOk(c, s.world.registry)
  {
    ReachableOk(c, s);
  }
}
