/** What recording a push does: its events are the complete minimal difference of the two
    snapshots, replaying them leads from one to the other, and it queues at most one run. */
module ReceiveProofs {
  import opened Text
  import opened RefListing
  import opened Model
  import opened EventLog
  import opened ReceiveRegions
  import opened LogProofs
  import opened RunProofs

  // What is read of Git's branches is a valid snapshot, and all of them unless a name holds whitespace.
  lemma ReadingIsValid(refs: Refs)
    requires GitRefs(refs)
    ensures ValidRefs(Reading(refs)) && (Reading(refs) == refs <==> SpaceFree(refs))
  {
    forall ref | ref in refs ensures ref != "" && '\n' !in ref && ObjectID(refs[ref]) {
      assert GitRef(ref, refs[ref]);
    }
    ListingReads(refs, SortedKeys(refs.Keys));
    ReadingIsWhole(refs);
    hide SortedKeys; hide Parse; hide Listing; hide ObjectID; hide Fields; hide SpaceFree;
    forall w | w in Reading(refs) ensures ValidRef(w, Reading(refs)[w]) {
      var name :| name in refs && Fields(name) == [w] && Reading(refs)[w] == refs[name];
      assert Fields(name)[0] == w;
    }
  }

  // The pusher's token and the repository share an installation, and Git's snapshots are valid.
  ghost predicate PushOk(p: Push) {
    && p.repository.id != 0 && p.repository.id in p.reg.repositories
    && p.reg.repositories[p.repository.id] == p.repository
    && p.repository.installationID in p.reg.installs && p.token.installationID == p.repository.installationID
    && ValidRefs(p.before) && ValidRefs(p.after)
  }

  // The log after the push event of one moved ref.
  function PushedLog(s: Recorded, p: Push, ref: string): Log {
    AppendPushEvent(s.log, p.reg, p.now, p.repository, p.AppID(), ref, p.BeforeSHA(ref), p.AfterSHA(ref),
                    ForcedUpdate(p.ancestry, p.BeforeSHA(ref), p.AfterSHA(ref)))
  }

  lemma PushedKeepsLog(s: Recorded, p: Push, ref: string)
    requires PushOk(p) && LogOk(p.reg, s.log, p.now)
    ensures LogOk(p.reg, PushedLog(s, p, ref), p.now) && s.log.events <= PushedLog(s, p, ref).events
  {
    hide LogOk; hide ValidRefs; hide Guid;
    AppendKeepsLog(p.reg, s.log, p.now, "push", "", p.AppID(), p.repository.id,
                   PushBodyOf(p.repository, p.AppID(), ref, p.BeforeSHA(ref), p.AfterSHA(ref),
                              ForcedUpdate(p.ancestry, p.BeforeSHA(ref), p.AfterSHA(ref))));
  }

  lemma QueuedKeepsLog(s: Recorded, p: Push, workflow: Workflow, ref: string, sha: string)
    requires PushOk(p) && LogOk(p.reg, s.log, p.now)
    ensures var s' := AppendQueuedWorkflow(s, p.reg, p.now, p.repository, workflow, ref, sha);
            LogOk(p.reg, s'.log, p.now) && s.log.events <= s'.log.events
  {
    var run := NewRun(s.ci.nextRunID + 1, p.repository, workflow, ref, sha);
    hide LogOk; hide ValidRefs; hide Guid;
    AppendKeepsLog(p.reg, s.log, p.now, "workflow_run", "requested",
                   InstallationOf(p.reg, RepositoryOf(p.reg, p.repository.id).installationID).appID, p.repository.id,
                   RunBodyOf(p.repository, run, "requested"));
  }

  lemma RecordRefKeepsLog(s: Recorded, p: Push, ref: string)
    requires PushOk(p) && LogOk(p.reg, s.log, p.now)
    ensures LogOk(p.reg, RecordRef(s, p, ref).log, p.now) && s.log.events <= RecordRef(s, p, ref).log.events
  {
    if p.Moves(ref) {
      PushedKeepsLog(s, p, ref);
      if p.Triggers(ref) {
        QueuedKeepsLog(s.(log := PushedLog(s, p, ref)), p, p.reg.workflows[p.repository.id], ref, p.AfterSHA(ref));
      }
    }
  }

  lemma RecordRefKeepsCi(s: Recorded, p: Push, ref: string)
    requires PushOk(p) && CiOk(p.reg, s.ci, s.log)
    ensures CiOk(p.reg, RecordRef(s, p, ref).ci, RecordRef(s, p, ref).log)
    ensures s.ci.active == RecordRef(s, p, ref).ci.active && s.ci.runs <= RecordRef(s, p, ref).ci.runs
  {
    if p.Moves(ref) {
      var log := PushedLog(s, p, ref);
      SilentKeepsCi(p.reg, s.ci, s.log, log, p.now, log.events[|s.log.events|]);
      if p.Triggers(ref) {
        QueueKeepsCi(s.(log := log), p.reg, p.now, p.repository, p.reg.workflows[p.repository.id], ref,
                     p.AfterSHA(ref));
      }
    }
  }

  lemma {:induction false} RecordRefsKeep(s: Recorded, p: Push, refs: seq<string>, k: nat)
    requires k <= |refs| && PushOk(p) && LogOk(p.reg, s.log, p.now) && CiOk(p.reg, s.ci, s.log)
    ensures var s' := RecordRefs(s, p, refs, k);
            && LogOk(p.reg, s'.log, p.now) && CiOk(p.reg, s'.ci, s'.log)
            && s.log.events <= s'.log.events && s.ci.runs <= s'.ci.runs && s.ci.active == s'.ci.active
  {
    if k > 0 {
      RecordRefsKeep(s, p, refs, k - 1);
      RecordRefKeepsLog(RecordRefs(s, p, refs, k - 1), p, refs[k - 1]);
      RecordRefKeepsCi(RecordRefs(s, p, refs, k - 1), p, refs[k - 1]);
    }
  }

  // The branch map with one ref moved to its state after the push.
  function MoveTo(refs: Refs, p: Push, ref: string): Refs {
    if ref in p.after then refs[ref := p.after[ref]] else refs - {ref}
  }

  // The first k refs moved.
  function Patch(p: Push, refs: seq<string>, k: nat): Refs
    requires k <= |refs|
  {
    if k == 0 then p.before else MoveTo(Patch(p, refs, k - 1), p, refs[k - 1])
  }

  lemma {:induction false} PatchReads(p: Push, refs: seq<string>, k: nat, ref: string)
    requires k <= |refs|
    ensures var m := if ref in refs[..k] then p.after else p.before;
            (ref in Patch(p, refs, k) <==> ref in m) && (ref in m ==> Patch(p, refs, k)[ref] == m[ref])
  {
    if k > 0 {
      PatchReads(p, refs, k - 1, ref);
      assert refs[..k] == refs[..k - 1] + [refs[k - 1]];
    }
  }

  // Moving every ref turns the first snapshot into the second.
  lemma PatchComplete(p: Push)
    ensures Patch(p, PushedRefs(p), |PushedRefs(p)|) == p.after
  {
    var refs := PushedRefs(p);
    forall ref {
      PatchReadsAll(p, ref);
    }
    assert forall ref :: ref in Patch(p, refs, |refs|) <==> ref in p.after;
  }

  lemma PatchReadsAll(p: Push, ref: string)
    ensures var end := Patch(p, PushedRefs(p), |PushedRefs(p)|);
            (ref in end <==> ref in p.after) && (ref in end ==> end[ref] == p.after[ref])
  {
    var refs := PushedRefs(p);
    PatchReads(p, refs, |refs|, ref);
    assert refs[..|refs|] == refs;
    assert ref in refs <==> ref in Elements(refs);
  }

  // An event of another kind or repository moves no ref of this one.
  lemma SilentKeepsReplay(log: Log, log': Log, now: int, e: Event, repo: int, start: Base)
    requires Added(log, log', now, e) && start.from <= |log.events|
    requires e.body.PushBody? && e.origin == |log.events| ==> e.repositoryID != repo
    ensures Replay(log'.events, repo, start) == Replay(log.events, repo, start)
    ensures Faithful(log'.events, repo, start) <==> Faithful(log.events, repo, start)
  {
    ReadingsOfAppend(log.events, e, repo, start, 0);
  }

  lemma BranchOfHead(ref: string)
    ensures BranchOf("refs/heads/" + ref) == ref
  {
  }

  // The push event of one ref, read against the map it moves.
  lemma PushedReplays(s: Recorded, p: Push, ref: string, repo: int, start: Base)
    requires PushOk(p) && p.Moves(ref) && start.from <= |s.log.events|
    requires repo == p.repository.id ==>
               var refs := Replay(s.log.events, repo, start);
               (ref in refs <==> ref in p.before) && (ref in refs ==> refs[ref] == p.before[ref])
    ensures var events := PushedLog(s, p, ref).events;
            && Replay(events, repo, start)
               == (if repo == p.repository.id then MoveTo(Replay(s.log.events, repo, start), p, ref)
                   else Replay(s.log.events, repo, start))
            && (Faithful(s.log.events, repo, start) ==> Faithful(events, repo, start))
  {
    var log := PushedLog(s, p, ref);
    var e := log.events[|s.log.events|];
    BranchOfHead(ref);
    assert ref in p.before ==> ValidRef(ref, p.before[ref]);
    assert ref in p.after ==> ValidRef(ref, p.after[ref]);
    ReadingsOfAppend(s.log.events, e, repo, start, 0);
    if repo == p.repository.id {
      var refs := Replay(s.log.events, repo, start);
      assert ApplyPush(refs, e.body) == MoveTo(refs, p, ref);
      assert Truthful(refs, e.body);
    }
  }

  lemma RecordRefReplays(s: Recorded, p: Push, ref: string, repo: int, start: Base)
    requires PushOk(p) && start.from <= |s.log.events|
    requires repo == p.repository.id ==>
               var refs := Replay(s.log.events, repo, start);
               (ref in refs <==> ref in p.before) && (ref in refs ==> refs[ref] == p.before[ref])
    ensures var events := RecordRef(s, p, ref).log.events;
            && Replay(events, repo, start)
               == (if repo == p.repository.id then MoveTo(Replay(s.log.events, repo, start), p, ref)
                   else Replay(s.log.events, repo, start))
            && (Faithful(s.log.events, repo, start) ==> Faithful(events, repo, start))
  {
    if p.Moves(ref) {
      PushedReplays(s, p, ref, repo, start);
      if p.Triggers(ref) {
        var pushed := PushedLog(s, p, ref);
        var log := RecordRef(s, p, ref).log;
        SilentKeepsReplay(pushed, log, p.now, log.events[|pushed.events|], repo, start);
      }
    } else {
      assert ref in p.before ==> ValidRef(ref, p.before[ref]);
      assert ref in p.after ==> ValidRef(ref, p.after[ref]);
    }
  }

  // Recording the refs in order replays as moving them in order.
  lemma {:induction false} RecordRefsReplay(s: Recorded, p: Push, refs: seq<string>, k: nat, repo: int, start: Base)
    requires k <= |refs| && Sorted(refs) && PushOk(p) && start.from <= |s.log.events|
    requires repo == p.repository.id ==> Replay(s.log.events, repo, start) == p.before
    ensures var events := RecordRefs(s, p, refs, k).log.events;
            && |s.log.events| <= |events|
            && Replay(events, repo, start)
               == (if repo == p.repository.id then Patch(p, refs, k) else Replay(s.log.events, repo, start))
            && (Faithful(s.log.events, repo, start) ==> Faithful(events, repo, start))
  {
    if k > 0 {
      RecordRefsReplay(s, p, refs, k - 1, repo, start);
      PatchReads(p, refs, k - 1, refs[k - 1]);
      forall j | 0 <= j < k - 1 ensures refs[j] != refs[k - 1] {
        BeforeTotal(refs[j], refs[k - 1]);
      }
      RecordRefReplays(RecordRefs(s, p, refs, k - 1), p, refs[k - 1], repo, start);
    }
  }

  // A recorded push, read against the pushed repository and against any other.
  lemma RecordingReplays(s: Recorded, p: Push, repo: int, start: Base)
    requires PushOk(p) && start.from <= |s.log.events|
    requires repo == p.repository.id ==> Replay(s.log.events, repo, start) == p.before
    ensures var events := RecordRefs(s, p, PushedRefs(p), |PushedRefs(p)|).log.events;
            && |s.log.events| <= |events|
            && Replay(events, repo, start)
               == (if repo == p.repository.id then p.after else Replay(s.log.events, repo, start))
            && (Faithful(s.log.events, repo, start) ==> Faithful(events, repo, start))
  {
    RecordRefsReplay(s, p, PushedRefs(p), |PushedRefs(p)|, repo, start);
    PatchComplete(p);
  }

  // The refs among the first k that the push moves.
  function MovedRefs(p: Push, refs: seq<string>, k: nat): seq<string>
    requires k <= |refs|
  {
    if k == 0 then [] else MovedRefs(p, refs, k - 1) + if p.Moves(refs[k - 1]) then [refs[k - 1]] else []
  }

  // The push bodies among the events from index n on.
  function PushBodies(events: seq<Event>, n: nat): (r: seq<Body>)
    ensures forall i :: 0 <= i < |r| ==> r[i].PushBody?
  {
    if |events| <= n then [] else
      var k := |events| - 1;
      PushBodies(events[..k], n) + if events[k].body.PushBody? then [events[k].body] else []
  }

  // What one push body says about the two snapshots.
  ghost predicate Describes(p: Push, ref: string, body: Body)
    requires body.PushBody?
  {
    && body.ref == "refs/heads/" + ref
    && body.before == (if ref in p.before then p.before[ref] else ZERO_ID)
    && body.after == (if ref in p.after then p.after[ref] else ZERO_ID)
    && body.before != body.after
    && (body.created <==> ref !in p.before)
    && (body.deleted <==> ref !in p.after)
    && (body.forced <==> ref in p.before && ref in p.after && (p.before[ref], p.after[ref]) !in p.ancestry)
  }

  ghost predicate DescribesAll(p: Push, refs: seq<string>, bodies: seq<Body>)
    requires forall i :: 0 <= i < |bodies| ==> bodies[i].PushBody?
  {
    |bodies| == |refs| && forall i :: 0 <= i < |refs| ==> Describes(p, refs[i], bodies[i])
  }

  lemma PushBodiesOfAppend(events: seq<Event>, n: nat, e: Event)
    requires n <= |events|
    ensures PushBodies(events + [e], n) == PushBodies(events, n) + if e.body.PushBody? then [e.body] else []
  {
    assert (events + [e])[..|events|] == events;
  }

  lemma PushedDescribes(s: Recorded, p: Push, ref: string)
    requires PushOk(p) && p.Moves(ref)
    ensures Describes(p, ref, PushedLog(s, p, ref).events[|s.log.events|].body)
  {
    assert ref in p.before ==> ValidRef(ref, p.before[ref]);
    assert ref in p.after ==> ValidRef(ref, p.after[ref]);
    hide ValidRefs; hide Guid; hide FullName;
  }

  lemma RecordRefDescribes(s: Recorded, p: Push, ref: string, n: nat)
    requires PushOk(p) && n <= |s.log.events|
    ensures var bodies := PushBodies(RecordRef(s, p, ref).log.events, n);
            if p.Moves(ref) then
              |bodies| == |PushBodies(s.log.events, n)| + 1 && bodies[..|bodies| - 1] == PushBodies(s.log.events, n)
              && Describes(p, ref, bodies[|bodies| - 1])
            else bodies == PushBodies(s.log.events, n)
  {
    RecordedEvents(s, p, ref);
    if p.Moves(ref) {
      PushedDescribes(s, p, ref);
      hide PushOk; hide Describes; hide RecordRef; hide PushedLog; hide PushBodies;
      var pushed, end := PushedLog(s, p, ref).events, RecordRef(s, p, ref).log.events;
      PushBodiesOfAppend(s.log.events, n, pushed[|s.log.events|]);
      if p.Triggers(ref) {
        PushBodiesOfAppend(pushed, n, end[|pushed|]);
      }
    }
  }

  // One ref adds its push event, and the requested event of the run it triggers.
  lemma RecordedEvents(s: Recorded, p: Push, ref: string)
    ensures var pushed, end := PushedLog(s, p, ref).events, RecordRef(s, p, ref).log.events;
            && |pushed| == |s.log.events| + 1 && pushed == s.log.events + [pushed[|s.log.events|]]
            && pushed[|s.log.events|].body.PushBody?
            && if !p.Moves(ref) then end == s.log.events
               else if !p.Triggers(ref) then end == pushed
               else |end| == |pushed| + 1 && end == pushed + [end[|pushed|]] && !end[|pushed|].body.PushBody?
  {
    hide Guid; hide FullName; hide ForcedUpdate;
  }

  lemma {:induction false} RecordRefsDescribe(s: Recorded, p: Push, refs: seq<string>, k: nat)
    requires k <= |refs| && PushOk(p)
    ensures |s.log.events| <= |RecordRefs(s, p, refs, k).log.events|
    ensures DescribesAll(p, MovedRefs(p, refs, k), PushBodies(RecordRefs(s, p, refs, k).log.events, |s.log.events|))
  {
    if k > 0 {
      RecordRefsDescribe(s, p, refs, k - 1);
      var mid := RecordRefs(s, p, refs, k - 1);
      RecordRefDescribes(mid, p, refs[k - 1], |s.log.events|);
      DescribesNext(p, MovedRefs(p, refs, k - 1), PushBodies(mid.log.events, |s.log.events|), refs[k - 1],
                    PushBodies(RecordRef(mid, p, refs[k - 1]).log.events, |s.log.events|));
    }
  }

  lemma DescribesNext(p: Push, moved: seq<string>, bodies: seq<Body>, ref: string, bodies': seq<Body>)
    requires forall i :: 0 <= i < |bodies| ==> bodies[i].PushBody?
    requires forall i :: 0 <= i < |bodies'| ==> bodies'[i].PushBody?
    requires DescribesAll(p, moved, bodies)
    requires if p.Moves(ref)
             then |bodies'| == |bodies| + 1 && bodies'[..|bodies'| - 1] == bodies
                 && Describes(p, ref, bodies'[|bodies'| - 1])
             else bodies' == bodies
    ensures DescribesAll(p, moved + if p.Moves(ref) then [ref] else [], bodies')
  {
    if p.Moves(ref) {
      forall i | 0 <= i < |moved| ensures Describes(p, moved[i], bodies'[i]) {
        assert bodies'[i] == bodies'[..|bodies|][i];
      }
    }
  }

  lemma {:induction false} MovedAreSorted(p: Push, refs: seq<string>, k: nat)
    requires k <= |refs| && Sorted(refs)
    ensures Sorted(MovedRefs(p, refs, k))
    ensures forall ref :: ref in MovedRefs(p, refs, k) <==> ref in refs[..k] && p.Moves(ref)
  {
    if k > 0 {
      MovedAreSorted(p, refs, k - 1);
      assert refs[..k] == refs[..k - 1] + [refs[k - 1]];
      var moved := MovedRefs(p, refs, k - 1);
      forall i | 0 <= i < |moved| ensures Before(moved[i], refs[k - 1]) {
        assert moved[i] in refs[..k - 1];
      }
    }
  }

  // The push events added to a log are the complete minimal difference of a push's two
  // snapshots: one for each ref that differs, in strictly increasing ref order, none for any
  // other, each with its true ends and flags.
  ghost predicate RecordsDifference(p: Push, log: Log, log': Log) {
    var moved := MovedRefs(p, PushedRefs(p), |PushedRefs(p)|);
    && Sorted(moved)
    && (forall ref ::
          ref in moved <==> (ref in p.before || ref in p.after) && Lookup(p.before, ref) != Lookup(p.after, ref))
    && DescribesAll(p, moved, PushBodies(log'.events, |log.events|))
  }

  lemma CompleteMinimalDiff(s: Recorded, p: Push)
    requires PushOk(p)
    ensures RecordsDifference(p, s.log, RecordRefs(s, p, PushedRefs(p), |PushedRefs(p)|).log)
  {
    var refs := PushedRefs(p);
    RecordRefsDescribe(s, p, refs, |refs|);
    MovedAreSorted(p, refs, |refs|);
    assert refs[..|refs|] == refs;
    forall ref ensures ref in refs <==> ref in p.before || ref in p.after {
      assert ref in refs <==> ref in Elements(refs);
    }
  }

  // The push moves the configured release ref to an object.
  predicate ReleaseMoved(p: Push) {
    p.repository.id in p.reg.workflows
    && var ref := p.reg.workflows[p.repository.id].releaseRef;
       ref in p.after && (ref !in p.before || p.before[ref] != p.after[ref])
  }

  // The columns of the run a release push queues, one by one.
  ghost predicate IsReleaseRun(run: Run, ci: Ci, p: Push)
    requires ReleaseMoved(p)
  {
    var workflow := p.reg.workflows[p.repository.id];
    && run.id == ci.nextRunID + 1 && run.attempt == 1 && run.repositoryID == p.repository.id
    && run.workflowID == workflow.id && run.workflowName == workflow.name && run.workflowPath == workflow.path
    && run.event == "push" && run.headBranch == workflow.releaseRef && run.headSHA == p.after[workflow.releaseRef]
    && run.status == Queued && run.conclusion == "" && !run.cancellationRequested && run.logs == ""
  }

  // One run is queued, on the release ref configured at that moment, exactly when the push
  // moves that ref to an object; the claims stand.
  ghost predicate QueuesRelease(p: Push, ci: Ci, ci': Ci) {
    && ci'.active == ci.active
    && if ReleaseMoved(p) then
         && |ci'.runs| == |ci.runs| + 1 && ci'.runs[..|ci.runs|] == ci.runs
         && IsReleaseRun(ci'.runs[|ci.runs|], ci, p) && ci'.nextRunID == ci.nextRunID + 1
       else ci'.runs == ci.runs && ci'.nextRunID == ci.nextRunID
  }

  // The run a push queues among its first k refs, if any.
  function QueuedRuns(s: Recorded, p: Push, refs: seq<string>, k: nat): seq<Run>
    requires k <= |refs|
  {
    if p.repository.id in p.reg.workflows then
      var workflow := p.reg.workflows[p.repository.id];
      if workflow.releaseRef in refs[..k] && p.Moves(workflow.releaseRef) && p.AfterSHA(workflow.releaseRef) != ""
      then [NewRun(s.ci.nextRunID + 1, p.repository, workflow, workflow.releaseRef, p.AfterSHA(workflow.releaseRef))]
      else []
    else []
  }

  lemma {:induction false} RecordRefsQueue(s: Recorded, p: Push, refs: seq<string>, k: nat)
    requires k <= |refs| && Sorted(refs)
    ensures RecordRefs(s, p, refs, k).ci.runs == s.ci.runs + QueuedRuns(s, p, refs, k)
    ensures RecordRefs(s, p, refs, k).ci.nextRunID == s.ci.nextRunID + |QueuedRuns(s, p, refs, k)|
    ensures RecordRefs(s, p, refs, k).ci.active == s.ci.active
  {
    if k > 0 {
      RecordRefsQueue(s, p, refs, k - 1);
      QueuedNext(s, p, refs, k);
      RecordRefQueues(RecordRefs(s, p, refs, k - 1), p, refs[k - 1]);
      hide RecordRef; hide QueuedRuns; hide NewRun; hide Sorted;
    }
  }

  lemma RecordRefQueues(s: Recorded, p: Push, ref: string)
    ensures var ci := RecordRef(s, p, ref).ci;
            if p.Moves(ref) && p.Triggers(ref) then
              && ci.runs == s.ci.runs + [NewRun(s.ci.nextRunID + 1, p.repository, p.reg.workflows[p.repository.id], ref,
                                                p.AfterSHA(ref))]
              && ci.nextRunID == s.ci.nextRunID + 1 && ci.active == s.ci.active
            else ci == s.ci
  {
    hide AppendPushEvent; hide AppendRunEvent; hide ForcedUpdate;
  }

  // The ref at position k queues the push's run, or the runs queued so far stand.
  lemma QueuedNext(s: Recorded, p: Push, refs: seq<string>, k: nat)
    requires 0 < k <= |refs| && Sorted(refs)
    ensures var ref := refs[k - 1];
            if p.Moves(ref) && p.Triggers(ref) then
              && QueuedRuns(s, p, refs, k - 1) == []
              && QueuedRuns(s, p, refs, k)
                 == [NewRun(s.ci.nextRunID + 1, p.repository, p.reg.workflows[p.repository.id], ref, p.AfterSHA(ref))]
            else QueuedRuns(s, p, refs, k) == QueuedRuns(s, p, refs, k - 1)
  {
    assert refs[..k] == refs[..k - 1] + [refs[k - 1]];
    forall j | 0 <= j < k - 1 ensures refs[j] != refs[k - 1] {
      BeforeTotal(refs[j], refs[k - 1]);
    }
    hide Before; hide NewRun;
  }

  lemma QueuedIffReleaseMoved(s: Recorded, p: Push)
    requires PushOk(p)
    ensures var runs := QueuedRuns(s, p, PushedRefs(p), |PushedRefs(p)|);
            if ReleaseMoved(p) then |runs| == 1 && IsReleaseRun(runs[0], s.ci, p) else runs == []
  {
    if p.repository.id in p.reg.workflows {
      PushedRefHas(p, p.reg.workflows[p.repository.id].releaseRef);
    }
    hide PushOk; hide PushedRefs;
  }

  lemma PushedRefHas(p: Push, ref: string)
    requires PushOk(p)
    ensures var refs := PushedRefs(p);
            && refs[..|refs|] == refs && (ref in refs <==> ref in p.before || ref in p.after)
            && (ref in p.before ==> p.before[ref] != "") && (ref in p.after ==> p.after[ref] != "")
  {
    var refs := PushedRefs(p);
    assert refs[..|refs|] == refs;
    assert ref in refs <==> ref in Elements(refs);
    assert ref in p.after ==> ValidRef(ref, p.after[ref]);
    assert ref in p.before ==> ValidRef(ref, p.before[ref]);
  }

  lemma QueuesExactly(s: Recorded, p: Push)
    requires PushOk(p)
    ensures QueuesRelease(p, s.ci, RecordRefs(s, p, PushedRefs(p), |PushedRefs(p)|).ci)
  {
    RecordRefsQueue(s, p, PushedRefs(p), |PushedRefs(p)|);
    QueuedIffReleaseMoved(s, p);
    hide RecordRefs; hide PushedRefs; hide QueuedRuns; hide PushOk; hide IsReleaseRun; hide ReleaseMoved;
  }
}
