/** What the execution, transition and delivery handlers answer and do, case by case, in every
    reachable state: which requests are accepted, and everything an accepted one changes. */
module RunAnswers {
  import opened Text
  import opened Model
  import opened EventLog
  import opened RunRegions
  import opened LogProofs
  import opened RunProofs
  import opened Twin
  import opened Invariants
  import opened Frames
  import opened Safety
  import opened ReceiveProofs
  import opened ReceiveRegions
  import opened RunTheorems
  import opened PushTheorems
  import opened LogTheorems
  import opened KeepsRun
  import KeepsReceive

  // One event more, original and created now, that says this about the run as it is after the step.
  ghost predicate TellsRun(w: World, w': World, run: Run, action: string) {
    var n := |w.log.events|;
    && |w'.log.events| == n + 1 && w'.log.events[..n] == w.log.events
    && Original(w'.log.events, n) && w'.log.events[n].createdAt == w.now
    && Says(w'.log.events[n].body, run, action, run.status, if run.conclusion == "" then None else Some(run.conclusion))
  }

  // The world after run i and the claims changed and one event told of it, all else as before.
  ghost predicate RunMoved(w: World, w': World, i: nat, run: Run, active: map<int, ActiveRun>, action: string)
    requires i < |w.ci.runs|
  {
    && w'.ci == w.ci.(runs := w.ci.runs[i := run], active := active)
    && w' == w.(ci := w'.ci, log := w'.log, mutations := w.mutations + 1)
    && TellsRun(w, w', run, action)
  }

  lemma AnnounceMoves(w: World, r: Repository, i: nat, run: Run, active: map<int, ActiveRun>, action: string)
    requires i < |w.ci.runs| && r.id == run.repositoryID
    ensures RunMoved(w, Announce(w, r, i, run, active, action), i, run, active, action)
  {
    hide Guid; hide FullName;
  }

  lemma RunFacts(c: Casing, s: State, i: nat)
    requires Reachable(c, s) && i < |s.world.ci.runs|
    ensures s.world.ci.runs[i].id == 1001 + i && FindRun(s.world.ci.runs, 1001 + i) == i
    ensures s.world.ci.runs[i].repositoryID in s.world.registry.repositories
            && RepositoryOf(s.world.registry, s.world.ci.runs[i].repositoryID).id == s.world.ci.runs[i].repositoryID
  {
    CiFacts(c, s);
    RegistryFacts(c, s);
    FindByRunID(s.world.ci, i);
    assert RunOk(s.world.registry, s.world.ci.runs[i]);
    hide Reachable; hide ExecutorsOk; hide SignalsOk; hide DenseOk; hide FindRun; hide HistoriesOk; hide RequestsOk;
  }

  // A scripted transition is allowed to an unclaimed run: from queued to in progress without a
  // conclusion, and from anywhere but completed to completed with one.
  ghost predicate MayTransition(ci: Ci, run: Run, wanted: WantedStatus, conclusion: string) {
    && run.id !in ci.active
    && ((run.status == Queued && wanted == Wanted(InProgress) && conclusion == "")
        || (run.status != Completed && wanted == Wanted(Completed) && conclusion != ""))
  }

  lemma TransitionIsAllowed(w: World, i: nat, wanted: WantedStatus, conclusion: string)
    requires i < |w.ci.runs| && FindRun(w.ci.runs, w.ci.runs[i].id) == i
    ensures var run := w.ci.runs[i];
            TransitionRun(w, run.id, wanted, conclusion)
            == if MayTransition(w.ci, run, wanted, conclusion)
               then Outcome(Announce(w, RepositoryOf(w.registry, run.repositoryID), i,
                                     run.(status := wanted.status, conclusion := conclusion), w.ci.active,
                                     if wanted.status == InProgress then "in_progress" else "completed"), 200)
               else Outcome(w, 409)
    ensures MayTransition(w.ci, w.ci.runs[i], wanted, conclusion) ==> wanted.Wanted?
  {
    hide FindRun; hide Announce;
  }

  // It is accepted exactly when allowed, then moves that run to the wanted status with the given
  // conclusion and tells so; otherwise it is a conflict and changes nothing.
  lemma TransitionAnswer(c: Casing, s: State, i: nat, wanted: WantedStatus, conclusion: string)
    requires Reachable(c, s) && i < |s.world.ci.runs|
    ensures var w, run := s.world, s.world.ci.runs[i];
            var done := TransitionRun(w, run.id, wanted, conclusion);
            && (done.status == 200 <==> MayTransition(w.ci, run, wanted, conclusion))
            && (done.status != 200 ==> done.status == 409 && done.world == w)
            && (s.drafting.None? ==> Step(c, s, OnRun(Transition(run.id, wanted, conclusion))).world == done.world)
            && (done.status == 200 ==>
                  && wanted.Wanted?
                  && RunMoved(w, done.world, i, run.(status := wanted.status, conclusion := conclusion), w.ci.active,
                              if wanted.status == InProgress then "in_progress" else "completed"))
  {
    RunFacts(c, s, i);
    var w, run := s.world, s.world.ci.runs[i];
    TransitionStepIs(s, run.id, wanted, conclusion);
    hide Reachable; hide RunMoved; hide Announce; hide RunStep;
    TransitionIsAllowed(w, i, wanted, conclusion);
    hide TransitionRun; hide FindRun; hide MayTransition;
    if MayTransition(w.ci, run, wanted, conclusion) {
      AnnounceMoves(w, RepositoryOf(w.registry, run.repositoryID), i,
                    run.(status := wanted.status, conclusion := conclusion), w.ci.active,
                    if wanted.status == InProgress then "in_progress" else "completed");
    }
  }

  // An id no run has is not found, by a transition, an execution or a redelivery alike.
  lemma UnknownRun(w: World, runID: int, wanted: WantedStatus, conclusion: string)
    ensures TransitionRun(w, runID, wanted, conclusion).status == 404
            <==> forall i :: 0 <= i < |w.ci.runs| ==> w.ci.runs[i].id != runID
    ensures TransitionRun(w, runID, wanted, conclusion).status == 404 ==>
              TransitionRun(w, runID, wanted, conclusion).world == w
    ensures CheckClaim(w, runID) == 404 <==> forall i :: 0 <= i < |w.ci.runs| ==> w.ci.runs[i].id != runID
  {
    hide Announce; hide TransitionAction;
    var k := FindRun(w.ci.runs, runID);
    assert k < |w.ci.runs| ==> w.ci.runs[k].id == runID;
  }

  // An execution claims a run exactly when it is queued, unclaimed and its repository has a
  // workflow. It captures the run's place, repository and workflow, and marks the claim as one
  // without a process; nothing else changes.
  lemma ClaimAnswer(c: Casing, s: State, id: int, i: nat)
    requires Reachable(c, s) && s.drafting.None? && i < |s.world.ci.runs| && id !in s.executors
    ensures var w, run := s.world, s.world.ci.runs[i];
            var s' := Step(c, s, OnRun(ClaimRun(id, run.id)));
            && (id in s'.executors
                <==> run.status == Queued && run.id !in w.ci.active && run.repositoryID in w.registry.workflows)
            && (id in s'.executors <==> CheckClaim(w, run.id) == 0)
            && (id !in s'.executors ==> CheckClaim(w, run.id) == 409 && s' == s)
            && (id in s'.executors ==>
                  && run.repositoryID in w.registry.repositories
                  && s'.executors == s.executors[id := Preparing(run.id, i, w.registry.repositories[run.repositoryID],
                                                                 w.registry.workflows[run.repositoryID])]
                  && s'.world == w.(ci := w.ci.(active := w.ci.active[run.id := ActiveRun(None, false)])))
  {
    RunFacts(c, s, i);
    hide Reachable; hide FindRun;
  }

  // A claim given up leaves its run as it was.
  lemma AbandonAnswer(c: Casing, s: State, id: int)
    requires s.drafting.None? && id in s.executors && s.executors[id].Preparing?
    ensures var s' := Step(c, s, OnRun(Abandon(id)));
            && s'.executors == s.executors - {id}
            && s'.world == s.world.(ci := s.world.ci.(active := s.world.ci.active - {s.executors[id].runID}))
  {
  }

  // An executor's run, and what the registry holds about it.
  lemma ExecutorFacts(c: Casing, s: State, id: int)
    requires Reachable(c, s) && id in s.executors
    ensures ExecutorOk(s.world.registry, s.world.ci, id, s.executors[id])
    ensures s.executors[id].runID == 1001 + s.executors[id].index
    ensures s.executors[id].repository.id == s.world.ci.runs[s.executors[id].index].repositoryID
  {
    CiFacts(c, s);
    RegistryFacts(c, s);
    assert ExecutorOk(s.world.registry, s.world.ci, id, s.executors[id]);
    hide Reachable; hide SignalsOk; hide DenseOk; hide HistoriesOk; hide RequestsOk;
  }

  lemma StartIs(c: Casing, s: State, id: int, startOk: bool)
    requires s.drafting.None? && id in s.executors && s.executors[id].Preparing?
    requires s.executors[id].index < |s.world.ci.runs|
    requires var run := s.world.ci.runs[s.executors[id].index]; run.id == s.executors[id].runID && run.status == Queued
    ensures var e, w := s.executors[id], s.world;
            var run, active := w.ci.runs[e.index], w.ci.active;
            var s' := Step(c, s, OnRun(StartProcess(id, startOk)));
            && s'.executors == (if !run.cancellationRequested && startOk
                                then s.executors[id := Running(e.runID, e.index, e.repository)] else s.executors - {id})
            && s'.world == (if run.cancellationRequested then
                              Announce(w, e.repository, e.index, run.(status := Completed, conclusion := "cancelled"),
                                       active - {e.runID}, "completed")
                            else if !startOk then w.(ci := w.ci.(active := active - {e.runID}))
                            else Announce(w, e.repository, e.index, run.(status := InProgress),
                                          active[e.runID := ActiveRun(Some(id), false)], "in_progress"))
  {
    hide Announce;
  }

  // The start of an execution: a cancelled run ends as cancelled; a process that does not start
  // leaves the run queued and unclaimed; otherwise the run is in progress and its claim holds the
  // process. No other run and no other claim differs.
  lemma StartAnswer(c: Casing, s: State, id: int, startOk: bool)
    requires Reachable(c, s) && s.drafting.None? && id in s.executors && s.executors[id].Preparing?
    ensures s.executors[id].index < |s.world.ci.runs|
    ensures var e, w := s.executors[id], s.world;
            var run := w.ci.runs[e.index];
            var s' := Step(c, s, OnRun(StartProcess(id, startOk)));
            if run.cancellationRequested then
              && s'.executors == s.executors - {id}
              && RunMoved(w, s'.world, e.index, run.(status := Completed, conclusion := "cancelled"),
                          w.ci.active - {e.runID}, "completed")
            else if !startOk then
              && s'.executors == s.executors - {id}
              && s'.world == w.(ci := w.ci.(active := w.ci.active - {e.runID}))
            else
              && s'.executors == s.executors[id := Running(e.runID, e.index, e.repository)]
              && RunMoved(w, s'.world, e.index, run.(status := InProgress),
                          w.ci.active[e.runID := ActiveRun(Some(id), false)], "in_progress")
  {
    ExecutorFacts(c, s, id);
    StartIs(c, s, id, startOk);
    hide Reachable; hide RunMoved; hide Announce; hide Step;
    var e, w := s.executors[id], s.world;
    var run := w.ci.runs[e.index];
    AnnounceMoves(w, e.repository, e.index, run.(status := Completed, conclusion := "cancelled"),
                  w.ci.active - {e.runID}, "completed");
    AnnounceMoves(w, e.repository, e.index, run.(status := InProgress),
                  w.ci.active[e.runID := ActiveRun(Some(id), false)], "in_progress");
  }

  // The word for how a process ended.
  function Ending(exitZero: bool, signalled: bool): string {
    if exitZero then "success" else if signalled then "cancelled" else "failure"
  }

  lemma FinishIs(c: Casing, s: State, id: int, exitZero: bool, logs: string)
    requires s.drafting.None? && id in s.executors && s.executors[id].Running?
    requires s.executors[id].index < |s.world.ci.runs| && s.executors[id].runID in s.world.ci.active
    requires s.world.ci.runs[s.executors[id].index].id == s.executors[id].runID
    ensures var e, w := s.executors[id], s.world;
            var s' := Step(c, s, OnRun(FinishProcess(id, exitZero, logs)));
            var run := w.ci.runs[e.index].(status := Completed, logs := logs,
                                           conclusion := Ending(exitZero, w.ci.active[e.runID].cancellationSignalled));
            && s'.executors == s.executors - {id}
            && s'.world == Announce(w, e.repository, e.index, run, w.ci.active - {e.runID}, "completed")
  {
    hide Announce;
  }

  // The end of an execution: the run is completed with the process's logs, as a success for a zero
  // exit, else as cancelled if the interrupt was delivered, else as a failure; its claim is gone.
  // No other run and no other claim differs.
  lemma FinishAnswer(c: Casing, s: State, id: int, exitZero: bool, logs: string)
    requires Reachable(c, s) && s.drafting.None? && id in s.executors && s.executors[id].Running?
    ensures s.executors[id].index < |s.world.ci.runs| && s.executors[id].runID in s.world.ci.active
    ensures var e, w := s.executors[id], s.world;
            var s' := Step(c, s, OnRun(FinishProcess(id, exitZero, logs)));
            var run := w.ci.runs[e.index].(status := Completed, logs := logs,
                                           conclusion := Ending(exitZero, w.ci.active[e.runID].cancellationSignalled));
            && s'.executors == s.executors - {id}
            && RunMoved(w, s'.world, e.index, run, w.ci.active - {e.runID}, "completed")
  {
    ExecutorFacts(c, s, id);
    FinishIs(c, s, id, exitZero, logs);
    hide Reachable; hide RunMoved; hide Announce; hide Step; hide Ending;
    var e, w := s.executors[id], s.world;
    AnnounceMoves(w, e.repository, e.index,
                  w.ci.runs[e.index].(status := Completed, logs := logs,
                                      conclusion := Ending(exitZero, w.ci.active[e.runID].cancellationSignalled)),
                  w.ci.active - {e.runID}, "completed");
  }

  // The requested event of a release push carries the configured workflow's columns.
  ghost predicate RequestsRelease(body: Body, runID: int, repositoryID: int, workflow: Workflow, sha: string) {
    && body.RunBody? && body.action == "requested" && body.runID == runID && body.attempt == 1
    && body.workflowID == workflow.id && body.name == workflow.name && body.path == workflow.path
    && body.event == "push" && body.headBranch == workflow.releaseRef && body.headSHA == sha
    && body.status == Queued && body.conclusion == None && body.repository.id == repositoryID
  }

  // A recorded push that moves the release ref announces its run in that form.
  lemma ReleaseIsAnnounced(c: Casing, s: State, repo: int, ancestry: Ancestry) returns (k: nat)
    requires Reachable(c, s) && s.drafting.None? && IsObserved(s, repo)
    requires ReleaseMoved(KeepsReceive.PushOf(s, repo, ancestry))
    ensures var p := KeepsReceive.PushOf(s, repo, ancestry);
            var workflow := p.reg.workflows[p.repository.id];
            var events := Step(c, s, OnReceive(RecordPush(repo, ancestry))).world.log.events;
            && |s.world.log.events| <= k < |events| && Requested(events, k)
            && RequestsRelease(events[k].body, s.world.ci.nextRunID + 1, p.repository.id, workflow,
                               p.after[workflow.releaseRef])
  {
    var s', i := Step(c, s, OnReceive(RecordPush(repo, ancestry))), |s.world.ci.runs|;
    PushRecordsDifference(c, s, repo, ancestry);
    ReachableNext(c, s, OnReceive(RecordPush(repo, ancestry)));
    LogGrows(c, s, [OnReceive(RecordPush(repo, ancestry))]);
    OneStep(c, s, OnReceive(RecordPush(repo, ancestry)));
    RunIDsKnown(c, s);
    RecordIsStep(c, s, repo, ancestry);
    hide Reachable; hide Step; hide ReceiveStep; hide Execute; hide RecordsDifference; hide RunHistory;
    hide ReleaseMoved;
    RunLife(c, s', i);
    var run := s'.world.ci.runs[i];
    k := HistoryPosition(s'.world.log.events, run.id, 0);
    EventsTellRegistry(c, s', k);
  }

  lemma RecordIsStep(c: Casing, s: State, repo: int, ancestry: Ancestry)
    requires s.drafting.None?
    ensures Step(c, s, OnReceive(RecordPush(repo, ancestry))) == ReceiveStep(c, s, RecordPush(repo, ancestry))
  {
    hide ReceiveStep;
  }

  lemma RunIDsKnown(c: Casing, s: State)
    requires Reachable(c, s)
    ensures s.world.ci.nextRunID == 1000 + |s.world.ci.runs|
    ensures forall k :: 0 <= k < |s.world.log.events| && s.world.log.events[k].body.RunBody? ==>
              s.world.log.events[k].body.runID <= s.world.ci.nextRunID
  {
    CiFacts(c, s);
  }

  // Handler `id` carries the delivery it fetched, or the answer it got.
  predicate IsSend(l: Label, id: int) {
    l.OnDelivery? && l.delivery.Send? && l.delivery.id == id
  }

  predicate NotSentBy(labels: seq<Label>, id: int) {
    forall k :: 0 <= k < |labels| ==> !IsSend(labels[k], id)
  }

  predicate NotLoggedBy(labels: seq<Label>, id: int) {
    forall k :: 0 <= k < |labels| ==> labels[k] != OnDelivery(LogDelivery(id))
  }

  lemma DeliveryKeepsDelivering(s: State, l: DeliveryLabel, id: int)
    requires id in s.deliveries
    requires s.deliveries[id].Fetched? ==> !IsSend(OnDelivery(l), id)
    requires s.deliveries[id].Answered? ==> l != LogDelivery(id)
    ensures var s' := DeliveryStep(s, l); id in s'.deliveries && s'.deliveries[id] == s.deliveries[id]
  {
    hide ReadDelivery; hide RunRegions.DuplicateEvent; hide LogAttempt; hide AttemptOf; hide PostOf;
  }

  lemma StepKeepsDelivering(c: Casing, s: State, l: Label, id: int)
    requires id in s.deliveries
    requires s.deliveries[id].Fetched? ==> !IsSend(l, id)
    requires s.deliveries[id].Answered? ==> l != OnDelivery(LogDelivery(id))
    ensures var s' := Step(c, s, l); id in s'.deliveries && s'.deliveries[id] == s.deliveries[id]
  {
    hide ControlStep; hide PublicStep; hide RunStep; hide DeliveryStep; hide ReceiveStep; hide IsSend;
    if !(s.drafting.Some? && NeedsLock(l)) {
      match l
      case OnControl(k) => ControlFrame(c, s, k);
      case OnPublic(p) => PublicFrame(c, s, p);
      case OnRun(r) => RunFrame(s, r);
      case OnDelivery(d) => DeliveryKeepsDelivering(s, d, id);
      case OnReceive(r) => ReceiveFrame(c, s, r);
    }
  }

  lemma {:induction false} RunKeepsDelivering(c: Casing, s: State, labels: seq<Label>, id: int)
    requires id in s.deliveries
    requires s.deliveries[id].Fetched? ==> NotSentBy(labels, id)
    requires s.deliveries[id].Answered? ==> NotLoggedBy(labels, id)
    ensures var s' := Execute(c, s, labels); id in s'.deliveries && s'.deliveries[id] == s.deliveries[id]
  {
    hide Step;
    if labels != [] {
      var n := |labels| - 1;
      RunKeepsDelivering(c, s, labels[..n], id);
      StepKeepsDelivering(c, Execute(c, s, labels[..n]), labels[n], id);
    }
  }

  // A delivery is begun exactly for a known event whose App has a webhook URL and secret.
  ghost predicate Deliverable(w: World, k: nat) {
    && k < |w.log.events| && w.log.events[k].appID in w.registry.apps
    && w.registry.apps[w.log.events[k].appID].webhookURL != ""
    && w.registry.apps[w.log.events[k].appID].webhookSecret != ""
  }

  lemma ReadIs(w: World, k: nat, invalidSignature: bool)
    requires DenseOk(w.log) && k < |w.log.events|
    ensures var e, d := w.log.events[k], ReadDelivery(w, w.log.events[k].guid, invalidSignature);
            && (d.Some? <==> Deliverable(w, k))
            && (d.Some? ==> d.value == Delivery(e, w.registry.apps[e.appID], invalidSignature, w.now))
  {
    FindByGuid(w.log, k);
    assert w.log.events[k].guid == Guid(k + 1);
    hide FindEvent; hide Guid; hide DenseOk;
  }

  lemma FetchIs(c: Casing, s: State, id: int, guid: string, invalidSignature: bool)
    requires s.drafting.None? && id !in s.deliveries
    ensures var d := ReadDelivery(s.world, guid, invalidSignature);
            Step(c, s, OnDelivery(Fetch(id, guid, invalidSignature)))
            == s.(deliveries := if d.Some? then s.deliveries[id := Fetched(d.value)] else s.deliveries)
  {
    hide ReadDelivery;
  }

  lemma FetchAnswer(c: Casing, s: State, id: int, k: nat, invalidSignature: bool)
    requires Reachable(c, s) && s.drafting.None? && id !in s.deliveries && k < |s.world.log.events|
    ensures var w, e := s.world, s.world.log.events[k];
            var s' := Step(c, s, OnDelivery(Fetch(id, e.guid, invalidSignature)));
            && s' == s.(deliveries := s'.deliveries) && (id in s'.deliveries <==> Deliverable(w, k))
            && (id in s'.deliveries ==>
                  s'.deliveries == s.deliveries[id := Fetched(Delivery(e, w.registry.apps[e.appID], invalidSignature,
                                                                       w.now))])
  {
    LogDense(c, s);
    ReadIs(s.world, k, invalidSignature);
    FetchIs(c, s, id, s.world.log.events[k].guid, invalidSignature);
    hide Reachable; hide ReadDelivery; hide DenseOk; hide Deliverable; hide Step;
  }

  lemma LogDense(c: Casing, s: State)
    requires Reachable(c, s)
    ensures DenseOk(s.world.log)
  {
    CiFacts(c, s);
  }

  // One delivery from end to end, whatever other handlers do in between: the message is the event
  // under its own headers, sent to its App's URL as they were when it was fetched, spoilt exactly
  // when asked; and what is recorded is that message's fate, dated when it was fetched.
  lemma DeliveryTells(c: Casing, s: State, id: int, k: nat, invalidSignature: bool, before: seq<Label>,
                      statusCode: Option<int>, after: seq<Label>)
    requires Reachable(c, s) && s.drafting.None? && id !in s.deliveries && Deliverable(s.world, k)
    requires NotSentBy(before, id) && NotLoggedBy(after, id)
    ensures var w, e := s.world, s.world.log.events[k];
            var a := w.registry.apps[e.appID];
            var s1 := Execute(c, Step(c, s, OnDelivery(Fetch(id, e.guid, invalidSignature))), before);
            var s2 := Step(c, s1, OnDelivery(Send(id, statusCode)));
            var s3 := Execute(c, s2, after);
            && s2.sent == s1.sent + [Post(e.guid, e.kind, e.body, a.webhookURL, a.webhookSecret, invalidSignature)]
            && (s3.drafting.None? ==>
                  Step(c, s3, OnDelivery(LogDelivery(id))).world
                  == s3.world.(attempts := s3.world.attempts
                                           + [Attempt(e.guid, a.webhookURL, invalidSignature, w.now, statusCode)],
                               mutations := s3.world.mutations + 1))
  {
    var e := s.world.log.events[k];
    FetchAnswer(c, s, id, k, invalidSignature);
    var s0 := Step(c, s, OnDelivery(Fetch(id, e.guid, invalidSignature)));
    hide Execute; hide Reachable; hide Step;
    RunKeepsDelivering(c, s0, before, id);
    var s1 := Execute(c, s0, before);
    SendIs(c, s1, id, statusCode);
    var s2 := Step(c, s1, OnDelivery(Send(id, statusCode)));
    RunKeepsDelivering(c, s2, after, id);
    LogIs(c, Execute(c, s2, after), id);
  }

  lemma SendIs(c: Casing, s: State, id: int, statusCode: Option<int>)
    requires id in s.deliveries && s.deliveries[id].Fetched?
    ensures var d, s' := s.deliveries[id].delivery, Step(c, s, OnDelivery(Send(id, statusCode)));
            && s'.sent == s.sent + [Post(d.event.guid, d.event.kind, d.event.body, d.app.webhookURL,
                                         d.app.webhookSecret, d.invalidSignature)]
            && id in s'.deliveries && s'.deliveries[id].Answered?
            && s'.deliveries[id].attempt
               == Attempt(d.event.guid, d.app.webhookURL, d.invalidSignature, d.at, statusCode)
  {
  }

  lemma LogIs(c: Casing, s: State, id: int)
    requires id in s.deliveries && s.deliveries[id].Answered?
    ensures s.drafting.None? ==>
              Step(c, s, OnDelivery(LogDelivery(id))).world
              == s.world.(attempts := s.world.attempts + [s.deliveries[id].attempt], mutations := s.world.mutations + 1)
  {
  }
}
