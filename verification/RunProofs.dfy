/** What the run list keeps: dense ids, one requested event right after its push, and a
    history of original events that spells each run's life up to its stored state. */
module RunProofs {
  import opened Text
  import opened Model
  import opened EventLog
  import opened PublicRegions
  import opened RunRegions
  import opened ReceiveRegions
  import opened LogProofs

  // Run i has id 1001 + i.
  ghost predicate DenseRuns(ci: Ci) {
    ci.nextRunID == 1000 + |ci.runs| && forall i :: 0 <= i < |ci.runs| ==> ci.runs[i].id == 1001 + i
  }

  ghost predicate RunOk(reg: Registry, run: Run) {
    run.repositoryID in reg.repositories && (run.conclusion != "" <==> run.status == Completed)
  }

  ghost predicate RunsOk(reg: Registry, ci: Ci) {
    DenseRuns(ci) && forall i :: 0 <= i < |ci.runs| ==> RunOk(reg, ci.runs[i])
  }

  // The columns of a run that never change.
  ghost predicate SameRun(a: Run, b: Run) {
    a == b.(status := a.status, conclusion := a.conclusion, cancellationRequested := a.cancellationRequested,
            logs := a.logs)
  }

  ghost predicate About(body: Body, run: Run) {
    && body.RunBody?
    && body.runID == run.id && body.attempt == run.attempt && body.workflowID == run.workflowID
    && body.name == run.workflowName && body.path == run.workflowPath && body.event == run.event
    && body.headBranch == run.headBranch && body.headSHA == run.headSHA && body.repository.id == run.repositoryID
  }

  ghost predicate Says(body: Body, run: Run, action: string, status: Status, conclusion: Option<string>) {
    About(body, run) && body.action == action && body.status == status && body.conclusion == conclusion
  }

  // The history of a run spells requested, then optionally in_progress, then optionally
  // completed, always about this very run, and its last word is the stored state.
  ghost predicate Spells(h: seq<Body>, run: Run) {
    && |h| >= 1 && Says(h[0], run, "requested", Queued, None)
    && match run.status
       case Queued => |h| == 1
       case InProgress => |h| == 2 && Says(h[1], run, "in_progress", InProgress, None)
       case Completed =>
         && 2 <= |h| <= 3 && (|h| == 3 ==> Says(h[1], run, "in_progress", InProgress, None))
         && Says(h[|h| - 1], run, "completed", Completed, Some(run.conclusion))
  }

  // Every event about a run, copies included, is filed under the run's own repository.
  ghost predicate EventsBelong(ci: Ci, log: Log) {
    forall k, i ::
      0 <= k < |log.events| && 0 <= i < |ci.runs| && log.events[k].body.RunBody?
          && log.events[k].body.runID == ci.runs[i].id ==>
      log.events[k].repositoryID == ci.runs[i].repositoryID
  }

  ghost predicate HistoriesOk(ci: Ci, log: Log) {
    && EventsBelong(ci, log)
    && (forall k :: 0 <= k < |log.events| && log.events[k].body.RunBody? ==>
          1000 < log.events[k].body.runID <= ci.nextRunID)
    && (forall i :: 0 <= i < |ci.runs| ==> Spells(RunHistory(log.events, ci.runs[i].id), ci.runs[i]))
  }

  predicate Requested(events: seq<Event>, k: nat)
    requires k < |events|
  {
    Original(events, k) && events[k].body.RunBody? && events[k].action == "requested"
  }

  // The push that queued a run is the event just before its requested event.
  ghost predicate FollowsPush(events: seq<Event>, k: nat)
    requires k < |events| && events[k].body.RunBody?
  {
    && 0 < k && Original(events, k - 1) && events[k - 1].body.PushBody?
    && events[k - 1].repositoryID == events[k].repositoryID
    && events[k - 1].body.ref == "refs/heads/" + events[k].body.headBranch
    && events[k - 1].body.after == events[k].body.headSHA
  }

  ghost predicate RequestsOk(log: Log) {
    && (forall k :: 0 <= k < |log.events| && Requested(log.events, k) ==> FollowsPush(log.events, k))
    && (forall j, k :: 0 <= j < k < |log.events| && Requested(log.events, j) && Requested(log.events, k) ==>
          log.events[j].body.runID < log.events[k].body.runID)
  }

  ghost predicate CiOk(reg: Registry, ci: Ci, log: Log) {
    RunsOk(reg, ci) && HistoriesOk(ci, log) && RequestsOk(log)
  }

  lemma {:induction false} NoHistory(events: seq<Event>, id: int)
    requires forall k :: 0 <= k < |events| && events[k].body.RunBody? ==> events[k].body.runID != id
    ensures RunHistory(events, id) == []
  {
    if events != [] {
      NoHistory(events[..|events| - 1], id);
    }
  }

  // An event that is not an original run event leaves every history as it was.
  lemma SilentKeepsCi(reg: Registry, ci: Ci, log: Log, log': Log, now: int, e: Event)
    requires CiOk(reg, ci, log) && Added(log, log', now, e) && e.origin <= |log.events|
    requires e.body.RunBody? ==>
               e.origin < |log.events| && log.events[e.origin].body == e.body
                   && log.events[e.origin].repositoryID == e.repositoryID
    ensures CiOk(reg, ci, log')
  {
    SilentKeepsHistories(ci, log, log', now, e);
    SilentKeepsRequests(log, log', now, e);
  }

  lemma SilentKeepsHistories(ci: Ci, log: Log, log': Log, now: int, e: Event)
    requires HistoriesOk(ci, log) && Added(log, log', now, e) && e.origin <= |log.events|
    requires e.body.RunBody? ==>
               e.origin < |log.events| && log.events[e.origin].body == e.body
                   && log.events[e.origin].repositoryID == e.repositoryID
    ensures HistoriesOk(ci, log')
  {
    forall i | 0 <= i < |ci.runs|
      ensures RunHistory(log'.events, ci.runs[i].id) == RunHistory(log.events, ci.runs[i].id) {
      ReadingsOfAppend(log.events, e, 0, Base(0, 0, map[]), ci.runs[i].id);
    }
  }

  lemma SilentKeepsRequests(log: Log, log': Log, now: int, e: Event)
    requires RequestsOk(log) && Added(log, log', now, e)
    requires e.body.RunBody? ==> e.origin < |log.events|
    ensures RequestsOk(log')
  {
    forall k | 0 <= k < |log'.events| && Requested(log'.events, k)
      ensures k < |log.events| && Requested(log.events, k) {
    }
    forall k | 0 <= k < |log'.events| && Requested(log'.events, k) ensures FollowsPush(log'.events, k) {
      assert FollowsPush(log.events, k);
    }
  }

  // A run event other than "requested" adds no request.
  lemma NewsKeepsRequests(log: Log, log': Log, now: int, e: Event)
    requires RequestsOk(log) && Added(log, log', now, e) && e.action != "requested"
    ensures RequestsOk(log')
  {
    forall k | 0 <= k < |log'.events| && Requested(log'.events, k)
      ensures k < |log.events| && Requested(log.events, k) {
    }
    forall k | 0 <= k < |log'.events| && Requested(log'.events, k) ensures FollowsPush(log'.events, k) {
      assert FollowsPush(log.events, k);
    }
  }

  // The lawful moves of a run.
  ghost predicate Advances(a: Run, b: Run, action: string) {
    && SameRun(b, a)
    && ((a.status == Queued && b.status == InProgress && b.conclusion == "" && action == "in_progress")
        || (a.status != Completed && b.status == Completed && b.conclusion != "" && action == "completed"))
  }

  lemma SpellsNext(h: seq<Body>, a: Run, b: Run, r: Repository, action: string)
    requires Spells(h, a) && Advances(a, b, action) && r.id == b.repositoryID
    ensures Spells(h + [RunBodyOf(r, b, action)], b)
  {
  }

  lemma AnnounceKeepsCi(w: World, r: Repository, k: nat, run: Run, active: map<int, ActiveRun>, action: string)
    requires k < |w.ci.runs| && CiOk(w.registry, w.ci, w.log) && Advances(w.ci.runs[k], run, action)
             && r.id == run.repositoryID
    ensures CiOk(w.registry, Announce(w, r, k, run, active, action).ci, Announce(w, r, k, run, active, action).log)
  {
    var w' := Announce(w, r, k, run, active, action);
    var e := w'.log.events[|w.log.events|];
    assert Added(w.log, w'.log, w.now, e);
    NewsKeepsRequests(w.log, w'.log, w.now, e);
    AnnouncedBelongs(w, r, k, run, active, action);
    hide EventsBelong;
    forall i | 0 <= i < |w'.ci.runs| ensures RunOk(w.registry, w'.ci.runs[i]) {
      assert RunOk(w.registry, w.ci.runs[i]);
    }
    forall i | 0 <= i < |w'.ci.runs| ensures Spells(RunHistory(w'.log.events, w'.ci.runs[i].id), w'.ci.runs[i]) {
      AnnouncedHistory(w, r, k, run, active, action, i);
    }
  }

  lemma AnnouncedBelongs(w: World, r: Repository, k: nat, run: Run, active: map<int, ActiveRun>, action: string)
    requires k < |w.ci.runs| && DenseRuns(w.ci) && EventsBelong(w.ci, w.log) && SameRun(run, w.ci.runs[k])
             && r.id == run.repositoryID
    ensures EventsBelong(Announce(w, r, k, run, active, action).ci, Announce(w, r, k, run, active, action).log)
  {
    assert w.ci.runs[k].id == 1001 + k;
    hide Guid; hide FullName;
  }

  lemma AnnouncedHistory(w: World, r: Repository, k: nat, run: Run, active: map<int, ActiveRun>, action: string, i: nat)
    requires k < |w.ci.runs| && i < |w.ci.runs| && CiOk(w.registry, w.ci, w.log) && Advances(w.ci.runs[k], run, action)
    requires r.id == run.repositoryID
    ensures var w' := Announce(w, r, k, run, active, action);
            Spells(RunHistory(w'.log.events, w'.ci.runs[i].id), w'.ci.runs[i])
    ensures i == k ==>
              RunHistory(Announce(w, r, k, run, active, action).log.events, run.id)
              == RunHistory(w.log.events, run.id) + [RunBodyOf(r, run, action)]
  {
    var w' := Announce(w, r, k, run, active, action);
    var e := w'.log.events[|w.log.events|];
    ReadingsOfAppend(w.log.events, e, 0, Base(0, 0, map[]), w.ci.runs[i].id);
    assert w.ci.runs[i].id == 1001 + i && w.ci.runs[k].id == 1001 + k;
    if i == k {
      SpellsNext(RunHistory(w.log.events, run.id), w.ci.runs[k], run, r, action);
    }
  }

  // A queued run enters with the requested event, right after its push.
  lemma QueueKeepsCi(s: Recorded, reg: Registry, now: int, r: Repository, workflow: Workflow, ref: string, sha: string)
    requires CiOk(reg, s.ci, s.log) && r.id in reg.repositories && s.log.events != []
    requires var p := s.log.events[|s.log.events| - 1];
             Original(s.log.events, |s.log.events| - 1) && p.body.PushBody? && p.repositoryID == r.id
             && p.body.ref == "refs/heads/" + ref && p.body.after == sha
    ensures var s' := AppendQueuedWorkflow(s, reg, now, r, workflow, ref, sha);
            CiOk(reg, s'.ci, s'.log)
  {
    var s' := AppendQueuedWorkflow(s, reg, now, r, workflow, ref, sha);
    var n := |s.log.events|;
    var e := s'.log.events[n];
    QueueKeepsHistories(s, reg, now, r, workflow, ref, sha);
    forall k | 0 <= k < |s'.log.events| && Requested(s'.log.events, k) ensures FollowsPush(s'.log.events, k) {
      if k < n {
        assert Requested(s.log.events, k) && FollowsPush(s.log.events, k);
      }
    }
    forall j, k | 0 <= j < k < |s'.log.events| && Requested(s'.log.events, j) && Requested(s'.log.events, k)
      ensures s'.log.events[j].body.runID < s'.log.events[k].body.runID
    {
      assert Requested(s.log.events, j);
      if k < n {
        assert Requested(s.log.events, k);
      }
    }
  }

  lemma QueueKeepsHistories(s: Recorded, reg: Registry, now: int, r: Repository, workflow: Workflow, ref: string,
                            sha: string)
    requires RunsOk(reg, s.ci) && HistoriesOk(s.ci, s.log) && r.id in reg.repositories
    ensures var s' := AppendQueuedWorkflow(s, reg, now, r, workflow, ref, sha);
            RunsOk(reg, s'.ci) && HistoriesOk(s'.ci, s'.log)
  {
    var s' := AppendQueuedWorkflow(s, reg, now, r, workflow, ref, sha);
    QueuedBelongs(s, reg, now, r, workflow, ref, sha);
    forall i | 0 <= i < |s'.ci.runs| ensures Spells(RunHistory(s'.log.events, s'.ci.runs[i].id), s'.ci.runs[i]) {
      QueuedSpells(s, reg, now, r, workflow, ref, sha, i);
    }
    hide EventsBelong; hide Spells; hide RunHistory; hide Guid; hide FullName;
  }

  lemma QueuedSpells(s: Recorded, reg: Registry, now: int, r: Repository, workflow: Workflow, ref: string, sha: string,
                     i: nat)
    requires RunsOk(reg, s.ci) && HistoriesOk(s.ci, s.log) && i <= |s.ci.runs|
    ensures var s' := AppendQueuedWorkflow(s, reg, now, r, workflow, ref, sha);
            Spells(RunHistory(s'.log.events, s'.ci.runs[i].id), s'.ci.runs[i])
  {
    var s' := AppendQueuedWorkflow(s, reg, now, r, workflow, ref, sha);
    var e := s'.log.events[|s.log.events|];
    var id := s.ci.nextRunID + 1;
    ReadingsOfAppend(s.log.events, e, 0, Base(0, 0, map[]), s'.ci.runs[i].id);
    hide EventsBelong; hide RunHistory; hide Guid; hide FullName; hide RunOk;
    if i < |s.ci.runs| {
      assert s'.ci.runs[i] == s.ci.runs[i] && s.ci.runs[i].id != id;
    } else {
      NoHistory(s.log.events, id);
    }
  }

  lemma QueuedBelongs(s: Recorded, reg: Registry, now: int, r: Repository, workflow: Workflow, ref: string, sha: string)
    requires DenseRuns(s.ci) && HistoriesOk(s.ci, s.log)
    ensures var s' := AppendQueuedWorkflow(s, reg, now, r, workflow, ref, sha);
            EventsBelong(s'.ci, s'.log)
  {
    hide Spells; hide RunHistory; hide Guid; hide FullName;
  }

  // The scans for a run agree with direct indexing.
  lemma FindByRunID(ci: Ci, i: nat)
    requires DenseRuns(ci) && i < |ci.runs|
    ensures FindRun(ci.runs, 1001 + i) == i
    ensures FindRunIn(ci.runs, 1001 + i, ci.runs[i].repositoryID) == i
  {
    assert ci.runs[i].id == 1001 + i;
    var j := FindRun(ci.runs, 1001 + i);
    var k := FindRunIn(ci.runs, 1001 + i, ci.runs[i].repositoryID);
    assert j <= i && k <= i;
    assert ci.runs[j].id == 1001 + j && ci.runs[k].id == 1001 + k;
  }
}
