/** The locked regions of the REST handlers (dtu/public.go). */
module PublicRegions {
  import opened Text
  import opened RefListing
  import opened Model
  import opened ControlRegions

  datatype TokenRequest = TokenRequest(
    installationID: int, repositoryIDs: seq<int>, repositories: seq<string>, permissions: Option<map<string, string>>)

  predicate Matches(c: Casing, reg: Registry, id: int, name: string) {
    c.EqualFold(RepositoryOf(reg, id).name, name)
  }

  predicate Matched(c: Casing, reg: Registry, granted: set<int>, name: string) {
    exists id :: id in granted && Matches(c, reg, id, name)
  }

  // Each requested id is granted, and each requested name is the folded name of a granted repository.
  predicate Selectable(c: Casing, reg: Registry, granted: set<int>, ids: seq<int>, names: seq<string>) {
    && (forall k :: 0 <= k < |ids| ==> ids[k] in granted)
    && (forall k :: 0 <= k < |names| ==> Matched(c, reg, granted, names[k]))
  }

  // The granted repositories a request names, by id or by folded name.
  function Selected(c: Casing, reg: Registry, granted: set<int>, ids: seq<int>, names: seq<string>): set<int> {
    set id | id in granted && (id in ids || exists k :: 0 <= k < |names| && Matches(c, reg, id, names[k]))
  }

  function SelectRepositories(c: Casing, reg: Registry, granted: set<int>, ids: seq<int>,
                              names: seq<string>): Option<set<int>> {
    if ids == [] && names == [] then Some(granted)
    else if Selectable(c, reg, granted, ids, names) then Some(Selected(c, reg, granted, ids, names))
    else None
  }

  predicate Narrows(granted: map<string, string>, wanted: map<string, string>) {
    forall p :: p in wanted ==>
      p in granted && PermissionRank(wanted[p]) != 0 && PermissionRank(wanted[p]) <= PermissionRank(granted[p])
  }

  function SelectPermissions(granted: map<string, string>,
                             requested: Option<map<string, string>>): Option<map<string, string>> {
    match requested
    case None => Some(granted)
    case Some(wanted) => if Narrows(granted, wanted) then Some(wanted) else None
  }

  // A JWT is accepted at `now` when it has been issued, has not expired and expires within ten minutes.
  predicate JwtAccepted(issuedAt: int, expiresAt: int, now: int) {
    !(issuedAt > now) && expiresAt > now && !(expiresAt > now + JWT_WINDOW)
  }

  // `value` is the random token.
  function CreateInstallationToken(c: Casing, w: World, appID: int, request: TokenRequest, value: string): Outcome {
    if request.repositories != [] && request.repositoryIDs != [] then Reject(w, 422)
    else if request.installationID !in w.registry.installs
            || w.registry.installs[request.installationID].appID != appID then Reject(w, 404)
    else
      var i := w.registry.installs[request.installationID];
      if !i.active then Reject(w, 403)
      else
        var ids := SelectRepositories(c, w.registry, i.repositoryIDs, request.repositoryIDs, request.repositories);
        if ids.None? then Reject(w, 422)
        else
          var permissions := SelectPermissions(i.permissions, request.permissions);
          if permissions.None? then Reject(w, 422)
          else
            var token := Token(value, request.installationID, ids.value, permissions.value, w.now + TOKEN_LIFETIME);
            Outcome(w.(tokens := w.tokens[value := token], mutations := w.mutations + 1), 201)
  }

  // authenticateInstallationToken
  function Authenticate(w: World, raw: string): Option<Token> {
    if raw in w.tokens && w.now < w.tokens[raw].expiresAt then Some(w.tokens[raw]) else None
  }

  // The index of the run with this id in this repository, or the length of the list.
  function FindRunIn(runs: seq<Run>, runID: int, repositoryID: int): (k: nat)
    ensures k <= |runs|
    ensures k < |runs| ==> runs[k].id == runID && runs[k].repositoryID == repositoryID
    ensures forall j :: 0 <= j < k ==> !(runs[j].id == runID && runs[j].repositoryID == repositoryID)
  {
    if runs == [] then 0
    else if runs[0].id == runID && runs[0].repositoryID == repositoryID then 0
    else 1 + FindRunIn(runs[1..], runID, repositoryID)
  }

  // A running command is interrupted; `delivered` says whether the signal was accepted.
  function Interrupt(active: map<int, ActiveRun>, runID: int, delivered: bool): map<int, ActiveRun> {
    if runID in active && active[runID].command.Some? && delivered
    then active[runID := active[runID].(cancellationSignalled := true)]
    else active
  }

  function CancelRun(c: Casing, w: World, token: Token, owner: string, name: string, runID: int,
                     delivered: bool): Outcome {
    var key := RepoName(c, owner, name);
    if key !in w.registry.repoNames then Reject(w, 404)
    else
      var repositoryID := w.registry.repoNames[key];
      if repositoryID !in token.repositoryIDs
          || PermissionRank(Lookup(token.permissions, "actions")) < PermissionRank("write")
      then Reject(w, 404)
      else
        var k := FindRunIn(w.ci.runs, runID, repositoryID);
        if k == |w.ci.runs| then Reject(w, 404)
        else if w.ci.runs[k].status == Completed then Reject(w, 409)
        else
          var runs := w.ci.runs[k := w.ci.runs[k].(cancellationRequested := true)];
          Outcome(w.(ci := w.ci.(runs := runs, active := Interrupt(w.ci.active, runID, delivered)),
                     mutations := w.mutations + 1), 202)
  }

  predicate CanReadPulls(permissions: map<string, string>) {
    PermissionRank(Lookup(permissions, "pull_requests")) >= 1 || PermissionRank(Lookup(permissions, "contents")) >= 1
  }

  /** A stored pull request with its key. */
  datatype Stored = Stored(key: PullKey, pull: Pull)

  // The first part of PullRequests.Get: the stored pull request, read under the lock.
  function ReadPull(c: Casing, w: World, token: Token, owner: string, name: string, number: int): Option<Stored> {
    var key := RepoName(c, owner, name);
    if key !in w.registry.repoNames then None
    else
      var id := w.registry.repoNames[key];
      if id !in token.repositoryIDs || !CanReadPulls(token.permissions) then None
      else if PullKey(id, number) !in w.pulls then None
      else Some(Stored(PullKey(id, number), w.pulls[PullKey(id, number)]))
  }

  // The later parts, one for each side: a live ref wins over the stored object id.
  function Shown(refs: Refs, ref: string, stored: string): string {
    if Lookup(refs, ref) == "" then stored else Lookup(refs, ref)
  }
}
