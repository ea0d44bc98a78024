/** The pending-event list: appending, copying and finding events, and the readings of the
    list (replayed refs, the events of one run) that the history properties are about. */
module EventLog {
  import opened Text
  import opened RefListing
  import opened Model

  function AppendAppEvent(log: Log, now: int, kind: string, action: string, appID: int, repositoryID: int,
                          body: Body): Log {
    Log(log.events + [Event(Guid(log.nextEventID + 1), kind, action, appID, repositoryID, now, body, |log.events|)],
        log.nextEventID + 1)
  }

  // The App is the one behind the repository's installation.
  function AppendEvent(log: Log, reg: Registry, now: int, kind: string, action: string, repositoryID: int,
                       body: Body): Log {
    AppendAppEvent(log, now, kind, action, InstallationOf(reg, RepositoryOf(reg, repositoryID).installationID).appID,
                   repositoryID, body)
  }

  function EventRepositoryOf(r: Repository): EventRepository {
    EventRepository(r.id, FullName(r))
  }

  function RunBodyOf(r: Repository, run: Run, action: string): Body {
    RunBody(action, run.id, run.attempt, run.workflowID, run.workflowName, run.workflowPath, run.event,
            run.headBranch, run.headSHA, run.status, if run.conclusion == "" then None else Some(run.conclusion),
            EventRepositoryOf(r), r.installationID)
  }

  function AppendRunEvent(log: Log, reg: Registry, now: int, r: Repository, run: Run, action: string): Log {
    AppendEvent(log, reg, now, "workflow_run", action, r.id, RunBodyOf(r, run, action))
  }

  function PushBodyOf(r: Repository, appID: int, ref: string, before: string, after: string, forced: bool): Body {
    var b := if before == "" then ZERO_ID else before;
    var a := if after == "" then ZERO_ID else after;
    PushBody("refs/heads/" + ref, b, a, b == ZERO_ID, a == ZERO_ID, forced, EventRepositoryOf(r), r.installationID,
             appID)
  }

  function AppendPushEvent(log: Log, reg: Registry, now: int, r: Repository, appID: int,
                           ref: string, before: string, after: string, forced: bool): Log {
    AppendEvent(log, reg, now, "push", "", r.id, PushBodyOf(r, appID, ref, before, after, forced))
  }

  // The index of the first event with this GUID, or the length of the list.
  function FindEvent(events: seq<Event>, guid: string): (k: nat)
    ensures k <= |events|
    ensures k < |events| ==> events[k].guid == guid
    ensures forall j :: 0 <= j < k ==> events[j].guid != guid
  {
    if events == [] then 0
    else if events[0].guid == guid then 0
    else 1 + FindEvent(events[1..], guid)
  }

  function DuplicateAt(log: Log, now: int, k: nat): Log
    requires k < |log.events|
  {
    Log(log.events + [log.events[k].(guid := Guid(log.nextEventID + 1), createdAt := now)], log.nextEventID + 1)
  }

  // An event as first created, not a semantic duplicate.
  predicate Original(events: seq<Event>, k: nat)
    requires k < |events|
  {
    events[k].origin == k
  }

  predicate OriginalPush(events: seq<Event>, k: nat, repositoryID: int)
    requires k < |events|
  {
    Original(events, k) && events[k].body.PushBody? && events[k].repositoryID == repositoryID
  }

  predicate OriginalRunEvent(events: seq<Event>, k: nat, runID: int)
    requires k < |events|
  {
    Original(events, k) && events[k].body.RunBody? && events[k].body.runID == runID
  }

  function BranchOf(ref: string): string {
    if |ref| >= 11 then ref[11..] else ""
  }

  // One push event applied to a branch map.
  function ApplyPush(refs: Refs, body: Body): Refs
    requires body.PushBody?
  {
    if body.after == ZERO_ID then refs - {BranchOf(body.ref)} else refs[BranchOf(body.ref) := body.after]
  }

  /** Where a reading of a repository's history starts: after how many events and observation
      errors, and from which refs. */
  datatype Base = Base(from: nat, errors: nat, refs: Refs)

  // The branch map a reader of a repository's original push events arrives at.
  function Replay(events: seq<Event>, repositoryID: int, start: Base): Refs {
    if |events| <= start.from then start.refs else
      var k := |events| - 1;
      var refs := Replay(events[..k], repositoryID, start);
      if OriginalPush(events, k, repositoryID) then ApplyPush(refs, events[k].body) else refs
  }

  // A push event tells the truth about the map it moves: its before end is what the map
  // holds, its after end differs, and the created and deleted flags say which end is absent.
  predicate Truthful(refs: Refs, body: Body)
    requires body.PushBody?
  {
    var ref := BranchOf(body.ref);
    body.ref == "refs/heads/" + ref && body.before != body.after
    && body.before == (if ref in refs then refs[ref] else ZERO_ID)
    && (body.created <==> ref !in refs)
    && (body.deleted <==> body.after == ZERO_ID)
    && (body.forced ==> !body.created && !body.deleted)
  }

  // Every original push event of the repository was truthful when it was recorded.
  predicate Faithful(events: seq<Event>, repositoryID: int, start: Base) {
    if |events| <= start.from then true else
      var k := |events| - 1;
      Faithful(events[..k], repositoryID, start)
      && (OriginalPush(events, k, repositoryID) ==> Truthful(Replay(events[..k], repositoryID, start), events[k].body))
  }

  // The bodies of the original events about one run, oldest first.
  function RunHistory(events: seq<Event>, runID: int): seq<Body> {
    if events == [] then [] else
      var k := |events| - 1;
      RunHistory(events[..k], runID) + if OriginalRunEvent(events, k, runID) then [events[k].body] else []
  }

  // Appending one event extends each reading by at most that event.
  lemma ReadingsOfAppend(events: seq<Event>, e: Event, repositoryID: int, start: Base, runID: int)
    requires start.from <= |events|
    ensures var all := events + [e];
            Replay(all, repositoryID, start)
            == (if OriginalPush(all, |events|, repositoryID) then ApplyPush(Replay(events, repositoryID, start), e.body)
                else Replay(events, repositoryID, start))
    ensures var all := events + [e];
            Faithful(all, repositoryID, start)
            <==> Faithful(events, repositoryID, start)
                 && (OriginalPush(all, |events|, repositoryID) ==>
                       Truthful(Replay(events, repositoryID, start), e.body))
    ensures var all := events + [e];
            RunHistory(all, runID)
            == RunHistory(events, runID) + if OriginalRunEvent(all, |events|, runID) then [e.body] else []
  {
    var all := events + [e];
    assert all[..|events|] == events;
  }
}
