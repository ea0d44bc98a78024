/** The record every handler shares, as an immutable value. One value is the twin's state
    between two locked regions. */
module Model {
  import opened Text
  import opened RefListing

  datatype Option<+T> = None | Some(value: T)

  // The object id a push event carries for an absent end of the movement.
  const ZERO_ID: string := "0000000000000000000000000000000000000000"
  // The virtual clock counts nanoseconds.
  const SECOND: int := 1_000_000_000
  const TOKEN_LIFETIME: int := 3600 * SECOND
  const JWT_WINDOW: int := 600 * SECOND

  // Forty zeros.
  lemma ZeroIDText()
    ensures |ZERO_ID| == 40 && forall i :: 0 <= i < 40 ==> ZERO_ID[i] == '0'
  {
  }

  // An object id as Git prints it.
  predicate ObjectID(sha: string) {
    sha != "" && sha != ZERO_ID && NoSpace(sha)
  }

  // A branch as Git keeps it: of Git's rules for names, only that a name holds no newline matters here.
  predicate GitRef(ref: string, sha: string) {
    ref != "" && '\n' !in ref && ObjectID(sha)
  }

  predicate GitRefs(refs: Refs) {
    forall ref :: ref in refs ==> GitRef(ref, refs[ref])
  }

  // A branch as a snapshot may hold it.
  predicate ValidRef(ref: string, sha: string) {
    ref != "" && NoSpace(ref) && ObjectID(sha)
  }

  predicate ValidRefs(refs: Refs) {
    forall ref :: ref in refs ==> ValidRef(ref, refs[ref])
  }

  datatype App = App(id: int, webhookURL: string, webhookSecret: string)

  datatype Installation = Installation(
    id: int, appID: int, active: bool, owner: string, ownerType: string,
    permissions: map<string, string>, repositoryIDs: set<int>)

  datatype Repository = Repository(id: int, owner: string, name: string, installationID: int)

  datatype Workflow = Workflow(id: int, name: string, path: string, releaseRef: string)

  datatype PullKey = PullKey(repositoryID: int, number: int)

  datatype Pull = Pull(baseRef: string, headRef: string, baseSHA: string, headSHA: string, state: string, draft: bool)

  datatype Token = Token(
    value: string, installationID: int, repositoryIDs: set<int>,
    permissions: map<string, string>, expiresAt: int)

  datatype Status = Queued | InProgress | Completed

  datatype Run = Run(
    id: int, attempt: int, repositoryID: int, workflowID: int, workflowName: string, workflowPath: string,
    event: string, headBranch: string, headSHA: string,
    status: Status, conclusion: string, cancellationRequested: bool, logs: string)

  // A claim on a run: `command` names the executor whose process is running, if any.
  datatype ActiveRun = ActiveRun(command: Option<int>, cancellationSignalled: bool)

  datatype EventRepository = EventRepository(id: int, fullName: string)

  datatype Body =
    | PushBody(ref: string, before: string, after: string, created: bool, deleted: bool, forced: bool,
               repository: EventRepository, installationID: int, sender: int)
    | RunBody(action: string, runID: int, attempt: int, workflowID: int, name: string, path: string,
              event: string, headBranch: string, headSHA: string, status: Status, conclusion: Option<string>,
              repository: EventRepository, installationID: int)
    | InstallationBody(action: string, installationID: int, account: string, accountType: string,
                       permissions: map<string, string>, sender: int)
    | RepositoriesBody(action: string, installationID: int, account: string, accountType: string,
                       added: EventRepository, sender: int)

  /** A pending webhook event. `origin` is an auxiliary component the source does not have:
      the index of the event this one was first copied from, or its own index. No operation
      reads it. */
  datatype Event = Event(
    guid: string, kind: string, action: string, appID: int, repositoryID: int, createdAt: int,
    body: Body, origin: nat)

  datatype ObservationError = ObservationError(repositoryID: int, at: int)

  datatype Attempt = Attempt(guid: string, destination: string, invalidSignature: bool, attemptedAt: int,
                             statusCode: Option<int>)

  datatype Unsupported = Unsupported(verb: string, path: string, at: int)

  datatype Registry = Registry(
    apps: map<int, App>, installs: map<int, Installation>, repositories: map<int, Repository>,
    repoNames: map<string, int>, receiveLocks: set<int>, workflows: map<int, Workflow>)

  datatype Ci = Ci(runs: seq<Run>, active: map<int, ActiveRun>, nextRunID: int)

  datatype Log = Log(events: seq<Event>, nextEventID: nat)

  datatype World = World(
    now: int, registry: Registry, tokens: map<string, Token>, pulls: map<PullKey, Pull>, ci: Ci, log: Log,
    errors: seq<ObservationError>, attempts: seq<Attempt>, unsupported: seq<Unsupported>, mutations: nat)

  function EmptyWorld(now: int): World {
    World(now, Registry(map[], map[], map[], map[], {}, map[]), map[], map[], Ci([], map[], 1000), Log([], 0),
          [], [], [], 0)
  }

  /** What a locked region does: the new world and the HTTP status it answers with. */
  datatype Outcome = Outcome(world: World, status: int)

  // Go map reads: a missing key reads as the zero value.
  function AppOf(reg: Registry, id: int): App {
    if id in reg.apps then reg.apps[id] else App(0, "", "")
  }

  function InstallationOf(reg: Registry, id: int): Installation {
    if id in reg.installs then reg.installs[id] else Installation(0, 0, false, "", "", map[], {})
  }

  function RepositoryOf(reg: Registry, id: int): Repository {
    if id in reg.repositories then reg.repositories[id] else Repository(0, "", "", 0)
  }

  function Lookup(m: map<string, string>, key: string): string {
    if key in m then m[key] else ""
  }

  function FullName(r: Repository): string {
    r.owner + "/" + r.name
  }

  function RepoName(c: Casing, owner: string, name: string): string {
    c.ToLower(owner) + "/" + c.ToLower(name)
  }

  predicate ValidPathComponent(s: string) {
    s != "" && s != "." && s != ".." && '/' !in s && '\\' !in s
  }

  function PermissionRank(level: string): int {
    if level == "read" then 1 else if level == "write" then 2 else if level == "admin" then 3 else 0
  }
}
