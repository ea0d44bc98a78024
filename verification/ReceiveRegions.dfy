/** The locked regions of a Git push (dtu/git.go). */
module ReceiveRegions {
  import opened Text
  import opened RefListing
  import opened Model
  import opened EventLog
  import opened PublicRegions

  // The first region of serveGit for git-receive-pack: who pushes to what.
  function AuthorizePush(c: Casing, w: World, raw: string, owner: string, name: string): Option<(Token, Repository)> {
    var token := Authenticate(w, raw);
    var key := RepoName(c, owner, name);
    if token.None? then None
    else if key !in w.registry.repoNames then None
    else
      var id := w.registry.repoNames[key];
      if id !in token.value.repositoryIDs then None
      else if PermissionRank(Lookup(token.value.permissions, "contents")) < PermissionRank("write") then None
      else Some((token.value, RepositoryOf(w.registry, id)))
  }

  /** `git merge-base --is-ancestor a b` succeeds exactly for the pairs (a, b) listed. */
  type Ancestry = set<(string, string)>

  predicate ForcedUpdate(ancestry: Ancestry, before: string, after: string) {
    before != "" && after != "" && (before, after) !in ancestry
  }

  function NewRun(id: int, r: Repository, workflow: Workflow, ref: string, sha: string): Run {
    Run(id, 1, r.id, workflow.id, workflow.name, workflow.path, "push", ref, sha, Queued, "", false, "")
  }

  /** The two parts of the world that recording a push changes. */
  datatype Recorded = Recorded(log: Log, ci: Ci)

  function AppendQueuedWorkflow(s: Recorded, reg: Registry, now: int, r: Repository, workflow: Workflow, ref: string,
                                sha: string): Recorded {
    var run := NewRun(s.ci.nextRunID + 1, r, workflow, ref, sha);
    Recorded(AppendRunEvent(s.log, reg, now, r, run, "requested"),
             s.ci.(runs := s.ci.runs + [run], nextRunID := run.id))
  }

  /** What stays fixed while one push is recorded. */
  datatype Push = Push(reg: Registry, now: int, repository: Repository, token: Token, before: Refs, after: Refs,
                       ancestry: Ancestry) {
    function BeforeSHA(ref: string): string { Lookup(before, ref) }
    function AfterSHA(ref: string): string { Lookup(after, ref) }
    predicate Moves(ref: string) { BeforeSHA(ref) != AfterSHA(ref) }
    function AppID(): int { InstallationOf(reg, token.installationID).appID }
    predicate Triggers(ref: string) {
      repository.id in reg.workflows && reg.workflows[repository.id].releaseRef == ref && AfterSHA(ref) != ""
    }
  }

  function RecordRef(s: Recorded, p: Push, ref: string): Recorded {
    if !p.Moves(ref) then s
    else
      var pushed := s.(log := AppendPushEvent(s.log, p.reg, p.now, p.repository, p.AppID(), ref, p.BeforeSHA(ref),
                                              p.AfterSHA(ref),
                                              ForcedUpdate(p.ancestry, p.BeforeSHA(ref), p.AfterSHA(ref))));
      if p.Triggers(ref)
      then AppendQueuedWorkflow(pushed, p.reg, p.now, p.repository, p.reg.workflows[p.repository.id], ref,
                                p.AfterSHA(ref))
      else pushed
  }

  // The first k refs recorded, in order.
  function RecordRefs(s: Recorded, p: Push, refs: seq<string>, k: nat): Recorded
    requires k <= |refs|
  {
    if k == 0 then s else RecordRef(RecordRefs(s, p, refs, k - 1), p, refs[k - 1])
  }

  function PushedRefs(p: Push): seq<string> {
    SortedKeys(p.before.Keys + p.after.Keys)
  }

  ghost function RecordRefChanges(w: World, r: Repository, token: Token, before: Refs, after: Refs,
                                  ancestry: Ancestry): World {
    var p := Push(w.registry, w.now, r, token, before, after, ancestry);
    var refs := PushedRefs(p);
    var s := RecordRefs(Recorded(w.log, w.ci), p, refs, |refs|);
    w.(log := s.log, ci := s.ci, mutations := w.mutations + if exists ref :: ref in refs && p.Moves(ref) then 1 else 0)
  }

  function RecordObservationError(w: World, repositoryID: int): World {
    w.(errors := w.errors + [ObservationError(repositoryID, w.now)])
  }

  // The pull requests of one repository, listed before their refs are read.
  function ListPulls(w: World, repositoryID: int): map<PullKey, (string, string)> {
    map key | key in w.pulls && key.repositoryID == repositoryID :: (w.pulls[key].baseRef, w.pulls[key].headRef)
  }

  // Writing one refreshed snapshot back: only object ids change, and only to refs that exist.
  function RefreshPull(w: World, key: PullKey, baseRef: string, headRef: string, baseSHA: string,
                       headSHA: string): World {
    if key in w.pulls && w.pulls[key].baseRef == baseRef && w.pulls[key].headRef == headRef then
      var pull := w.pulls[key];
      w.(pulls := w.pulls[key := pull.(baseSHA := if baseSHA != "" then baseSHA else pull.baseSHA,
                                       headSHA := if headSHA != "" then headSHA else pull.headSHA)])
    else w
  }
}
