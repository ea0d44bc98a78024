/** What a token request answers and stores, case by case, in every reachable state, and where
    every token in the table came from. */
module PublicAnswers {
  import opened Text
  import opened Model
  import opened Levels
  import opened PublicRegions
  import opened RegistryProofs
  import opened Twin
  import opened Invariants
  import opened Safety
  import opened AccessTheorems

  // The installation a request names is the calling App's own.
  predicate OwnInstallation(reg: Registry, appID: int, request: TokenRequest) {
    request.installationID in reg.installs && reg.installs[request.installationID].appID == appID
  }

  // A name is that of a granted repository, letter case aside.
  predicate NamesGranted(c: Casing, reg: Registry, granted: set<int>, id: int, name: string) {
    id in granted && id in reg.repositories && c.EqualFold(reg.repositories[id].name, name)
  }

  // Every repository asked for, by id or by name, is granted.
  predicate RepositoriesGranted(c: Casing, reg: Registry, granted: set<int>, request: TokenRequest) {
    && (forall id :: id in request.repositoryIDs ==> id in granted)
    && (forall name :: name in request.repositories ==>
          exists id :: id in granted && NamesGranted(c, reg, granted, id, name))
  }

  // Every permission asked for is granted at a level no lower.
  predicate PermissionsGranted(granted: map<string, string>, requested: Option<map<string, string>>) {
    requested.Some? ==>
      forall p :: p in requested.value ==> p in granted && NotAbove(requested.value[p], granted[p])
  }

  // Ids and names are not both given.
  predicate OneList(request: TokenRequest) {
    request.repositoryIDs == [] || request.repositories == []
  }

  // The repositories a request is for: those it lists, or all that are granted when it lists none.
  predicate AskedFor(c: Casing, reg: Registry, granted: set<int>, request: TokenRequest, id: int) {
    && id in granted
    && ((request.repositoryIDs == [] && request.repositories == []) || id in request.repositoryIDs
        || exists name :: name in request.repositories && NamesGranted(c, reg, granted, id, name))
  }

  lemma GrantedIsNarrow(granted: map<string, string>, requested: Option<map<string, string>>)
    ensures PermissionsGranted(granted, requested) <==> SelectPermissions(granted, requested).Some?
    ensures SelectPermissions(granted, requested).Some? ==>
              SelectPermissions(granted, requested).value == if requested.Some? then requested.value else granted
  {
    if requested.Some? {
      forall p | p in requested.value && p in granted
        ensures NotAbove(requested.value[p], granted[p])
                <==> (PermissionRank(requested.value[p]) != 0
                      && PermissionRank(requested.value[p]) <= PermissionRank(granted[p]))
      {
        RankIsOrder(requested.value[p], granted[p]);
      }
      hide NotAbove; hide PermissionRank;
    }
  }

  lemma MatchIsName(c: Casing, reg: Registry, granted: set<int>, id: int, name: string)
    requires id in granted && granted <= reg.repositories.Keys
    ensures Matches(c, reg, id, name) <==> NamesGranted(c, reg, granted, id, name)
  {
  }

  lemma GrantedIsSelected(c: Casing, reg: Registry, granted: set<int>, request: TokenRequest)
    requires granted <= reg.repositories.Keys
    ensures var ids := SelectRepositories(c, reg, granted, request.repositoryIDs, request.repositories);
            && (ids.Some? <==> RepositoriesGranted(c, reg, granted, request))
            && (ids.Some? ==> forall id :: id in ids.value <==> AskedFor(c, reg, granted, request, id))
  {
    forall id, name | id in granted ensures Matches(c, reg, id, name) <==> NamesGranted(c, reg, granted, id, name) {
      MatchIsName(c, reg, granted, id, name);
    }
    hide Matches; hide NamesGranted;
    var ids, names := request.repositoryIDs, request.repositories;
    assert forall x :: x in ids <==> exists k :: 0 <= k < |ids| && ids[k] == x;
    assert forall x :: x in names <==> exists k :: 0 <= k < |names| && names[k] == x;
    SelectableIsGranted(c, reg, granted, request);
    hide Selectable; hide RepositoriesGranted;
    if ids == [] && names == [] {
      NothingAsked(c, reg, granted, request);
    } else {
      forall id | id in granted
        ensures (id in Selected(c, reg, granted, ids, names)) <==> AskedFor(c, reg, granted, request, id)
      {
        SelectedIsAsked(c, reg, granted, request, id);
      }
    }
  }

  lemma NothingAsked(c: Casing, reg: Registry, granted: set<int>, request: TokenRequest)
    requires request.repositoryIDs == [] && request.repositories == []
    ensures RepositoriesGranted(c, reg, granted, request)
    ensures forall id :: id in granted <==> AskedFor(c, reg, granted, request, id)
  {
    hide NamesGranted;
  }

  lemma MatchedIsNamed(c: Casing, reg: Registry, granted: set<int>, name: string)
    requires forall id :: id in granted ==> (Matches(c, reg, id, name) <==> NamesGranted(c, reg, granted, id, name))
    ensures Matched(c, reg, granted, name) <==> exists id :: id in granted && NamesGranted(c, reg, granted, id, name)
  {
    hide Matches; hide NamesGranted;
  }

  lemma SelectableIsGranted(c: Casing, reg: Registry, granted: set<int>, request: TokenRequest)
    requires forall id, name :: id in granted ==>
               (Matches(c, reg, id, name) <==> NamesGranted(c, reg, granted, id, name))
    ensures Selectable(c, reg, granted, request.repositoryIDs, request.repositories)
            <==> RepositoriesGranted(c, reg, granted, request)
  {
    var ids, names := request.repositoryIDs, request.repositories;
    forall name
      ensures Matched(c, reg, granted, name) <==> exists id :: id in granted && NamesGranted(c, reg, granted, id, name)
    {
      MatchedIsNamed(c, reg, granted, name);
    }
    hide Matches; hide NamesGranted; hide Matched;
    if RepositoriesGranted(c, reg, granted, request) {
      forall k | 0 <= k < |names| ensures Matched(c, reg, granted, names[k]) {
        assert names[k] in names;
      }
      forall k | 0 <= k < |ids| ensures ids[k] in granted {
        var id := ids[k];
        assert id in ids;
      }
    }
    if forall k :: 0 <= k < |ids| ==> ids[k] in granted {
      forall id | id in ids ensures id in granted {
        var k :| 0 <= k < |ids| && ids[k] == id;
      }
    }
    if forall k :: 0 <= k < |names| ==> Matched(c, reg, granted, names[k]) {
      forall name | name in names ensures Matched(c, reg, granted, name) {
        var k :| 0 <= k < |names| && names[k] == name;
      }
    }
  }

  lemma SelectedIsAsked(c: Casing, reg: Registry, granted: set<int>, request: TokenRequest, id: int)
    requires id in granted && !(request.repositoryIDs == [] && request.repositories == [])
    requires forall name :: Matches(c, reg, id, name) <==> NamesGranted(c, reg, granted, id, name)
    ensures (id in Selected(c, reg, granted, request.repositoryIDs, request.repositories))
            <==> AskedFor(c, reg, granted, request, id)
  {
    hide Matches; hide NamesGranted;
    var names := request.repositories;
    if name :| name in names && NamesGranted(c, reg, granted, id, name) {
      var k :| 0 <= k < |names| && names[k] == name;
      assert Matches(c, reg, id, names[k]);
    }
    if k :| 0 <= k < |names| && Matches(c, reg, id, names[k]) {
      assert NamesGranted(c, reg, granted, id, names[k]);
    }
  }

  // The refusals of a token request: no processable list or grant (422), no installation of the
  // caller's (404), a suspended one (403).
  ghost predicate Unprocessable(c: Casing, reg: Registry, appID: int, request: TokenRequest) {
    || !OneList(request)
    || (&& OwnInstallation(reg, appID, request) && reg.installs[request.installationID].active
        && !(RepositoriesGranted(c, reg, reg.installs[request.installationID].repositoryIDs, request)
             && PermissionsGranted(reg.installs[request.installationID].permissions, request.permissions)))
  }

  ghost predicate Mintable(c: Casing, reg: Registry, appID: int, request: TokenRequest) {
    && OneList(request) && OwnInstallation(reg, appID, request) && reg.installs[request.installationID].active
    && RepositoriesGranted(c, reg, reg.installs[request.installationID].repositoryIDs, request)
    && PermissionsGranted(reg.installs[request.installationID].permissions, request.permissions)
  }

  // The token a request is given: an hour of life, the repositories asked for, the permissions
  // requested if any were, else all that the installation has.
  ghost predicate IsToken(c: Casing, w: World, request: TokenRequest, value: string, t: Token)
    requires request.installationID in w.registry.installs
  {
    var i := w.registry.installs[request.installationID];
    && t.value == value && t.installationID == request.installationID
    && t.expiresAt == w.now + 3600 * 1_000_000_000
    && (forall id :: id in t.repositoryIDs <==> AskedFor(c, w.registry, i.repositoryIDs, request, id))
    && t.permissions == if request.permissions.Some? then request.permissions.value else i.permissions
  }

  // A token is minted exactly for a caller's own, active installation that grants every repository
  // and permission asked for; each refusal has its own condition and leaves no trace; a token
  // stored is the one described and no other token changes.
  lemma MintAnswer(c: Casing, s: State, appID: int, request: TokenRequest, value: string)
    requires Reachable(c, s)
    ensures var reg, done := s.world.registry, CreateInstallationToken(c, s.world, appID, request, value);
            && (done.status == 201 <==> Mintable(c, reg, appID, request))
            && (done.status == 422 <==> Unprocessable(c, reg, appID, request))
            && (done.status == 404 <==> OneList(request) && !OwnInstallation(reg, appID, request))
            && (done.status == 403
                <==> (&& OneList(request) && OwnInstallation(reg, appID, request)
                      && !reg.installs[request.installationID].active))
            && (done.status != 201 ==> done.world == s.world)
            && (done.status == 201 ==>
                  && value in done.world.tokens
                  && IsToken(c, s.world, request, value, done.world.tokens[value])
                  && done.world == s.world.(tokens := s.world.tokens[value := done.world.tokens[value]],
                                            mutations := s.world.mutations + 1))
  {
    var reg := s.world.registry;
    if request.installationID in reg.installs {
      var i := reg.installs[request.installationID];
      GrantedIsKnown(c, s, request.installationID);
      GrantedIsSelected(c, reg, i.repositoryIDs, request);
      GrantedIsNarrow(i.permissions, request.permissions);
    }
    hide Reachable; hide SelectRepositories; hide SelectPermissions; hide RepositoriesGranted; hide PermissionsGranted;
    hide AskedFor;
  }

  lemma GrantedIsKnown(c: Casing, s: State, installationID: int)
    requires Reachable(c, s) && installationID in s.world.registry.installs
    ensures s.world.registry.installs[installationID].repositoryIDs <= s.world.registry.repositories.Keys
  {
    AccessFacts(c, s);
    hide Reachable; hide TokensOk; hide NamesOk; hide FoldsOk; hide TableOk; hide AccountsOk;
    var reg := s.world.registry;
    forall id | id in reg.installs[installationID].repositoryIDs ensures id in reg.repositories {
    }
  }
}
