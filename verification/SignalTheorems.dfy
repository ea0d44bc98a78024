/** When a run's claim carries the mark of a delivered interrupt, step by step and over the whole
    execution of a run, and what that makes of its conclusion. */
module SignalTheorems {
  import opened Text
  import opened Model
  import opened EventLog
  import opened PublicRegions
  import opened RunRegions
  import opened ReceiveRegions
  import opened ReceiveProofs
  import opened Twin
  import opened Invariants
  import opened Frames
  import opened Safety
  import opened RunTheorems
  import opened RunAnswers

  predicate Signalled(s: State, runID: int) {
    runID in s.world.ci.active && s.world.ci.active[runID].cancellationSignalled
  }

  // In this state, the step is a cancellation of this run, and it is accepted.
  ghost predicate Accepts(c: Casing, s: State, l: Label, runID: int) {
    && l.OnPublic? && l.public.Cancel? && s.drafting.None? && l.public.id in s.cancels
    && var r := s.cancels[l.public.id];
       && r.runID == runID
       && CancelRun(c, s.world, r.token, r.owner, r.name, r.runID, l.public.delivered).status == 202
  }

  // An accepted cancellation of this run, whose process takes the interrupt.
  ghost predicate Interrupts(c: Casing, s: State, l: Label, runID: int) {
    && Accepts(c, s, l, runID) && l.public.delivered
    && runID in s.world.ci.active && s.world.ci.active[runID].command.Some?
  }

  // A step leaves a claim marked exactly when it was marked or the step interrupts it.
  ghost predicate MarksRightly(c: Casing, s: State, s': State, l: Label, runID: int) {
    Signalled(s', runID)
    <==> runID in s'.world.ci.active && (Signalled(s, runID) || Interrupts(c, s, l, runID))
  }

  lemma SameClaims(c: Casing, s: State, s': State, l: Label, runID: int)
    requires s'.world.ci.active == s.world.ci.active && !(l.OnPublic? && l.public.Cancel?)
    ensures MarksRightly(c, s, s', l, runID)
  {
  }

  lemma ReceiveKeepsClaims(c: Casing, s: State, l: ReceiveLabel)
    ensures ReceiveStep(c, s, l).world.ci.active == s.world.ci.active
  {
    hide ReceiveStep; hide RecordedWorld;
    match l
    case BeginPush(_, _, _, _) => QueueFrame(c, s, l);
    case Lock(_) => QueueFrame(c, s, l);
    case RecordPush(repo, ancestry) => RecordKeepsClaims(c, s, repo, ancestry);
    case MoveRef(repo, ref, target) => MoveRefFrame(c, s, repo, ref, target);
    case _ => HandlerFrame(c, s, l);
  }

  lemma RecordKeepsClaims(c: Casing, s: State, repo: int, ancestry: Ancestry)
    ensures ReceiveStep(c, s, RecordPush(repo, ancestry)).world.ci.active == s.world.ci.active
  {
    if IsObserved(s, repo) {
      var x := s.packs[repo];
      var p := Push(s.world.registry, s.world.now, x.repository, x.token, x.before, x.after, ancestry);
      RecordRefsQueue(Recorded(s.world.log, s.world.ci), p, PushedRefs(p), |PushedRefs(p)|);
    }
    hide RecordRefs; hide PushedRefs;
  }

  lemma StartMarksRightly(c: Casing, s: State, id: int, startOk: bool, runID: int)
    requires Reachable(c, s) && s.drafting.None?
    ensures MarksRightly(c, s, RunStep(s, StartProcess(id, startOk)), OnRun(StartProcess(id, startOk)), runID)
  {
    StartIsStep(c, s, id, startOk);
    if IsPreparing(s, id) {
      ExecutorFacts(c, s, id);
      StartAnswer(c, s, id, startOk);
    } else {
      NotStarted(s, id, startOk);
    }
    hide Reachable; hide Step; hide RunStep; hide TellsRun;
  }

  lemma NotStarted(s: State, id: int, startOk: bool)
    requires !IsPreparing(s, id)
    ensures RunStep(s, StartProcess(id, startOk)) == s
  {
  }

  lemma RunMarksRightly(c: Casing, s: State, l: RunLabel, runID: int)
    requires Reachable(c, s) && (s.drafting.None? || !NeedsLock(OnRun(l)))
    ensures MarksRightly(c, s, RunStep(s, l), OnRun(l), runID)
  {
    hide Reachable; hide FindRun; hide AppendRunEvent; hide TransitionAction; hide StartRun;
    match l
    case ClaimRun(_, _) =>
    case Abandon(_) =>
    case StartProcess(id, startOk) => StartMarksRightly(c, s, id, startOk, runID);
    case StopProcesses =>
    case FinishProcess(_, _, _) =>
    case Transition(_, _, _) =>
  }

  lemma CancelMarksRightly(c: Casing, s: State, id: int, delivered: bool, runID: int)
    requires s.drafting.None?
    ensures MarksRightly(c, s, PublicStep(c, s, Cancel(id, delivered)), OnPublic(Cancel(id, delivered)), runID)
  {
    hide RepoName; hide FindRunIn;
  }

  lemma PublicMarksRightly(c: Casing, s: State, l: PublicLabel, runID: int)
    requires s.drafting.None? || !NeedsLock(OnPublic(l))
    ensures MarksRightly(c, s, PublicStep(c, s, l), OnPublic(l), runID)
  {
    if l.Cancel? {
      CancelMarksRightly(c, s, l.id, l.delivered, runID);
    } else {
      PublicFrame(c, s, l);
      if l.MintToken? && l.id in s.mints {
        MintFrame(c, s.world, s.mints[l.id].appID, s.mints[l.id].request, l.value);
      }
      hide CreateInstallationToken; hide MarksRightly;
      assert PublicStep(c, s, l).world.ci.active == s.world.ci.active;
      hide PublicStep;
      SameClaims(c, s, PublicStep(c, s, l), OnPublic(l), runID);
    }
  }

  // No step but an accepted, delivered cancellation of a run in progress sets its claim's mark, and
  // none clears it while the claim stands.
  lemma StepMarksRightly(c: Casing, s: State, l: Label, runID: int)
    requires Reachable(c, s)
    ensures MarksRightly(c, s, Step(c, s, l), l, runID)
  {
    hide Reachable; hide ControlStep; hide PublicStep; hide RunStep; hide DeliveryStep; hide ReceiveStep;
    if s.drafting.Some? && NeedsLock(l) {
    } else {
      hide MarksRightly;
      match l
      case OnControl(k) =>
        ControlWorldFrame(c, s, k);
        SameClaims(c, s, ControlStep(c, s, k), l, runID);
      case OnPublic(p) => PublicMarksRightly(c, s, p, runID);
      case OnRun(r) => RunMarksRightly(c, s, r, runID);
      case OnDelivery(d) =>
        DeliveryFrame(s, d);
        SameClaims(c, s, DeliveryStep(s, d), l, runID);
      case OnReceive(r) =>
        ReceiveKeepsClaims(c, s, r);
        SameClaims(c, s, ReceiveStep(c, s, r), l, runID);
    }
  }

  // What an accepted cancellation does to the claims: this run's is marked exactly when it was or
  // the signal was delivered to its process, and every other claim, and every process, stands.
  lemma CancelAnswer(c: Casing, s: State, id: int, delivered: bool)
    requires s.drafting.None? && id in s.cancels && Accepts(c, s, OnPublic(Cancel(id, delivered)), s.cancels[id].runID)
    ensures var runID, active := s.cancels[id].runID, s.world.ci.active;
            var active' := Step(c, s, OnPublic(Cancel(id, delivered))).world.ci.active;
            && active'.Keys == active.Keys
            && (forall other :: other in active && other != runID ==> active'[other] == active[other])
            && (runID in active ==>
                  && active'[runID].command == active[runID].command
                  && (active'[runID].cancellationSignalled
                      <==> active[runID].cancellationSignalled || (delivered && active[runID].command.Some?)))
  {
    hide RepoName; hide FindRunIn;
  }

  predicate NotFinishedBy(labels: seq<Label>, id: int) {
    forall k :: 0 <= k < |labels| ==> !IsFinish(labels[k], id)
  }

  predicate IsFinish(l: Label, id: int) {
    l.OnRun? && l.run.FinishProcess? && l.run.id == id
  }

  lemma RunKeepsRunning(s: State, l: RunLabel, id: int)
    requires id in s.executors && s.executors[id].Running? && !IsFinish(OnRun(l), id)
    ensures id in RunStep(s, l).executors && RunStep(s, l).executors[id] == s.executors[id]
  {
    hide FindRun; hide CheckClaim; hide StartRun; hide FinishRun; hide TransitionRun; hide Claim; hide Claimant;
    hide Started;
  }

  lemma StepKeepsRunning(c: Casing, s: State, l: Label, id: int)
    requires id in s.executors && s.executors[id].Running? && !IsFinish(l, id)
    ensures id in Step(c, s, l).executors && Step(c, s, l).executors[id] == s.executors[id]
  {
    hide ControlStep; hide PublicStep; hide RunStep; hide DeliveryStep; hide ReceiveStep; hide IsFinish;
    if !(s.drafting.Some? && NeedsLock(l)) {
      match l
      case OnControl(k) => ControlFrame(c, s, k);
      case OnPublic(p) => PublicFrame(c, s, p);
      case OnRun(r) => RunKeepsRunning(s, r, id);
      case OnDelivery(d) => DeliveryFrame(s, d);
      case OnReceive(r) => ReceiveFrame(c, s, r);
    }
  }

  // Some step of the run of the system interrupts this run.
  ghost predicate EverInterrupted(c: Casing, s: State, labels: seq<Label>, runID: int) {
    exists n :: 0 <= n < |labels| && InterruptedAt(c, s, labels, runID, n)
  }

  // Step n is an accepted cancellation of this run, and its signal is delivered.
  ghost predicate InterruptedAt(c: Casing, s: State, labels: seq<Label>, runID: int, n: nat)
    requires n < |labels|
  {
    Accepts(c, Execute(c, s, labels[..n]), labels[n], runID) && labels[n].public.delivered
  }

  lemma EverInterruptedNext(c: Casing, s: State, labels: seq<Label>, runID: int)
    requires labels != []
    ensures var n := |labels| - 1;
            EverInterrupted(c, s, labels, runID)
            <==> EverInterrupted(c, s, labels[..n], runID) || InterruptedAt(c, s, labels, runID, n)
  {
    hide Accepts; hide Execute;
    var n := |labels| - 1;
    forall m | 0 <= m < n
      ensures InterruptedAt(c, s, labels, runID, m) <==> InterruptedAt(c, s, labels[..n], runID, m)
    {
      assert labels[..n][..m] == labels[..m];
    }
  }

  // While a run's process runs, its claim is marked exactly when it was at first or some
  // cancellation of the run was accepted and delivered since.
  lemma {:induction false} RunMarks(c: Casing, s: State, labels: seq<Label>, id: int)
    requires Reachable(c, s) && id in s.executors && s.executors[id].Running? && NotFinishedBy(labels, id)
    ensures var s', runID := Execute(c, s, labels), s.executors[id].runID;
            && Reachable(c, s') && id in s'.executors && s'.executors[id] == s.executors[id]
            && (Signalled(s', runID) <==> Signalled(s, runID) || EverInterrupted(c, s, labels, runID))
  {
    ReachableOnward(c, s, labels);
    hide Reachable; hide Step; hide Accepts; hide Signalled;
    var runID := s.executors[id].runID;
    if labels != [] {
      var n := |labels| - 1;
      var before := Execute(c, s, labels[..n]);
      RunMarks(c, s, labels[..n], id);
      StepKeepsRunning(c, before, labels[n], id);
      StepMarksRightly(c, before, labels[n], runID);
      EverInterruptedNext(c, s, labels, runID);
      RunningIsClaimed(c, before, id);
      RunningIsClaimed(c, Execute(c, s, labels), id);
      hide EverInterrupted;
      assert InterruptedAt(c, s, labels, runID, n) <==> Interrupts(c, before, labels[n], runID);
    }
  }

  lemma RunningIsClaimed(c: Casing, s: State, id: int)
    requires Reachable(c, s) && id in s.executors && s.executors[id].Running?
    ensures s.executors[id].runID in s.world.ci.active && s.world.ci.active[s.executors[id].runID].command.Some?
  {
    ExecutorFacts(c, s, id);
  }

  // From start to finish: a run whose process started, under any schedule until the process exits,
  // concludes as cancelled if and only if the exit is non-zero and some cancellation of the run in
  // between was accepted and its signal delivered; as a success if and only if the exit is zero;
  // and as a failure otherwise.
  lemma CancelledIffInterrupted(c: Casing, s: State, id: int, labels: seq<Label>, exitZero: bool, logs: string)
    requires Reachable(c, s) && s.drafting.None? && id in s.executors && s.executors[id].Preparing?
    requires s.executors[id].index < |s.world.ci.runs|
             && !s.world.ci.runs[s.executors[id].index].cancellationRequested
    requires NotFinishedBy(labels, id)
    requires var s1 := Step(c, s, OnRun(StartProcess(id, true))); Execute(c, s1, labels).drafting.None?
    ensures var k, runID := s.executors[id].index, s.executors[id].runID;
            var s1 := Step(c, s, OnRun(StartProcess(id, true)));
            var s3 := Step(c, Execute(c, s1, labels), OnRun(FinishProcess(id, exitZero, logs)));
            && k < |s3.world.ci.runs| && s3.world.ci.runs[k].id == runID
            && s3.world.ci.runs[k].status == Completed && s3.world.ci.runs[k].logs == logs
            && s3.world.ci.runs[k].conclusion == Ending(exitZero, EverInterrupted(c, s1, labels, runID))
  {
    var s1 := Step(c, s, OnRun(StartProcess(id, true)));
    var s2 := Execute(c, s1, labels);
    ExecutorFacts(c, s, id);
    StartAnswer(c, s, id, true);
    ReachableNext(c, s, OnRun(StartProcess(id, true)));
    hide Reachable; hide Step; hide Execute; hide TellsRun; hide ExecutorOk; hide EverInterrupted;
    RunMarks(c, s1, labels, id);
    FinishAnswer(c, s2, id, exitZero, logs);
    ExecutorFacts(c, s2, id);
    ExecutorIndex(c, s2, id);
  }

  lemma ExecutorIndex(c: Casing, s: State, id: int)
    requires Reachable(c, s) && id in s.executors
    ensures s.executors[id].index < |s.world.ci.runs|
    ensures s.world.ci.runs[s.executors[id].index].id == s.executors[id].runID
  {
    ExecutorFacts(c, s, id);
  }
}
