/** The locked regions that move workflow runs and deliver events (dtu/execution.go, dtu/delivery.go). */
module RunRegions {
  import opened Model
  import opened EventLog
  import opened ControlRegions

  // workflowRunByID: the index of the run with this id, or the length of the list.
  function FindRun(runs: seq<Run>, runID: int): (k: nat)
    ensures k <= |runs|
    ensures k < |runs| ==> runs[k].id == runID
    ensures forall j :: 0 <= j < k ==> runs[j].id != runID
  {
    if runs == [] then 0
    else if runs[0].id == runID then 0
    else 1 + FindRun(runs[1..], runID)
  }

  // The claim region: 0 when the run is claimed, else the status of the refusal.
  function CheckClaim(w: World, runID: int): int {
    var k := FindRun(w.ci.runs, runID);
    if k == |w.ci.runs| then 404
    else
      var run := w.ci.runs[k];
      if run.status != Queued then 409
      else if run.id in w.ci.active then 409
      else if run.repositoryID !in w.registry.repositories || run.repositoryID !in w.registry.workflows then 409
      else 0
  }

  function Claim(w: World, runID: int): Outcome {
    if CheckClaim(w, runID) != 0 then Reject(w, CheckClaim(w, runID))
    else Outcome(w.(ci := w.ci.(active := w.ci.active[runID := ActiveRun(None, false)])), 0)
  }

  // The deferred release of a claim that never reached the start region.
  function Release(w: World, runID: int): World {
    w.(ci := w.ci.(active := w.ci.active - {runID}))
  }

  // Writing run k back and announcing it.
  function Announce(w: World, r: Repository, k: nat, run: Run, active: map<int, ActiveRun>, action: string): World
    requires k < |w.ci.runs|
  {
    w.(ci := w.ci.(runs := w.ci.runs[k := run], active := active),
       log := AppendRunEvent(w.log, w.registry, w.now, r, run, action),
       mutations := w.mutations + 1)
  }

  // The start region. `startOk`: the runner process started. `executor` names the process.
  function StartRun(w: World, r: Repository, k: nat, executor: int, startOk: bool): Outcome
    requires k < |w.ci.runs|
  {
    var run := w.ci.runs[k];
    var released := w.ci.active - {run.id};
    if run.status != Queued then Outcome(w.(ci := w.ci.(active := released)), 409)
    else if run.cancellationRequested then
      Outcome(Announce(w, r, k, run.(status := Completed, conclusion := "cancelled"), released, "completed"), 200)
    else if !startOk then Outcome(w.(ci := w.ci.(active := released)), 500)
    else Outcome(Announce(w, r, k, run.(status := InProgress), w.ci.active[run.id := ActiveRun(Some(executor), false)],
                          "in_progress"), 0)
  }

  function ConclusionOf(signalled: bool, exitZero: bool): string {
    if signalled && !exitZero then "cancelled" else if exitZero then "success" else "failure"
  }

  // The finish region, after the process exited.
  function FinishRun(w: World, r: Repository, k: nat, exitZero: bool, logs: string): Outcome
    requires k < |w.ci.runs|
  {
    var run := w.ci.runs[k];
    var signalled := run.id in w.ci.active && w.ci.active[run.id].cancellationSignalled;
    Outcome(Announce(w, r, k, run.(status := Completed, logs := logs, conclusion := ConclusionOf(signalled, exitZero)),
                     w.ci.active - {run.id}, "completed"), 200)
  }

  /** The status a scripted transition asks for; the wire carries any string. */
  datatype WantedStatus = Wanted(status: Status) | UnknownStatus

  function TransitionAction(run: Run, wanted: WantedStatus, conclusion: string): Option<string> {
    if run.status == Queued && wanted == Wanted(InProgress) && conclusion == "" then Some("in_progress")
    else if (run.status == Queued || run.status == InProgress) && wanted == Wanted(Completed) && conclusion != ""
        then Some("completed")
    else None
  }

  function TransitionRun(w: World, runID: int, wanted: WantedStatus, conclusion: string): Outcome {
    var k := FindRun(w.ci.runs, runID);
    if k == |w.ci.runs| then Reject(w, 404)
    else if runID in w.ci.active then Reject(w, 409)
    else
      var action := TransitionAction(w.ci.runs[k], wanted, conclusion);
      if action.None? then Reject(w, 409)
      else
        var run := w.ci.runs[k].(status := wanted.status, conclusion := conclusion);
        Outcome(Announce(w, RepositoryOf(w.registry, run.repositoryID), k, run, w.ci.active, action.value), 200)
  }

  function DuplicateEvent(w: World, guid: string): Outcome {
    var k := FindEvent(w.log.events, guid);
    if k == |w.log.events| then Reject(w, 404)
    else Outcome(w.(log := DuplicateAt(w.log, w.now, k), mutations := w.mutations + 1), 201)
  }

  /** A delivery between reading its event and logging its attempt. */
  datatype Delivery = Delivery(event: Event, app: App, invalidSignature: bool, at: int)

  function ReadDelivery(w: World, guid: string, invalidSignature: bool): Option<Delivery> {
    var k := FindEvent(w.log.events, guid);
    if k == |w.log.events| then None
    else
      var app := AppOf(w.registry, w.log.events[k].appID);
      if app.webhookURL == "" || app.webhookSecret == "" then None
      else Some(Delivery(w.log.events[k], app, invalidSignature, w.now))
  }

  function AttemptOf(d: Delivery, statusCode: Option<int>): Attempt {
    Attempt(d.event.guid, d.app.webhookURL, d.invalidSignature, d.at, statusCode)
  }

  function LogAttempt(w: World, attempt: Attempt): World {
    w.(attempts := w.attempts + [attempt], mutations := w.mutations + 1)
  }

  function RecordUnsupported(w: World, verb: string, path: string): World {
    w.(unsupported := w.unsupported + [Unsupported(verb, path, w.now)])
  }
}
