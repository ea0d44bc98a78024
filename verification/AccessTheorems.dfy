/** Tokens, App JWTs and the registry, over every run of the twin. */
module AccessTheorems {
  import opened Text
  import opened Model
  import opened Levels
  import opened ControlRegions
  import opened PublicRegions
  import opened ReceiveRegions
  import opened RegistryProofs
  import opened Twin
  import opened Invariants
  import opened Frames
  import opened Safety
  import opened Evolution

  lemma AccessFacts(c: Casing, s: State)
    requires Reachable(c, s)
    ensures RegistryOk(c, s.world.registry) && TokensOk(s.world.registry, s.world.tokens, s.world.now)
  {
    ReachableOk(c, s);
  }

  // A token never reaches a repository its installation lacks, nor a permission above its own.
  lemma TokensStayScoped(c: Casing, s: State, raw: string)
    requires Reachable(c, s) && raw in s.world.tokens
    ensures var t := s.world.tokens[raw];
            && t.installationID in s.world.registry.installs
            && t.repositoryIDs <= s.world.registry.installs[t.installationID].repositoryIDs
            && (forall id :: id in t.repositoryIDs ==>
                  id in s.world.registry.repositories
                      && s.world.registry.repositories[id].installationID == t.installationID)
            && var granted := s.world.registry.installs[t.installationID].permissions;
               forall p :: p in t.permissions ==>
                 p in granted && NotAbove(t.permissions[p], granted[p])
  {
    AccessFacts(c, s);
    hide Reachable; hide AccountsOk; hide NamesOk; hide FoldsOk;
    var t := s.world.tokens[raw];
    assert TokenOk(s.world.registry, t);
    var granted := s.world.registry.installs[t.installationID].permissions;
    forall p | p in t.permissions ensures p in granted && NotAbove(t.permissions[p], granted[p]) {
      RankIsOrder(t.permissions[p], granted[p]);
    }
  }

  // What later steps do, a repository joining the installation included, an issued token keeps
  // its scope and its expiry, and so it is accepted at exactly the later moments before that.
  lemma TokensAreFixed(c: Casing, s: State, labels: seq<Label>, raw: string)
    requires Reachable(c, s) && raw in s.world.tokens
    ensures var w := Execute(c, s, labels).world;
            && raw in w.tokens && w.tokens[raw] == s.world.tokens[raw]
            && Authenticate(w, raw) == if w.now < s.world.tokens[raw].expiresAt then Some(s.world.tokens[raw]) else None
  {
    ReachableOk(c, s);
    hide Reachable;
    RunsEvolveStates(c, s, labels);
    hide Invariant; hide Grows; hide RunsEvolve; hide PullsEvolve;
  }

  // A token once rejected as expired is rejected ever after.
  lemma ExpiredStaysExpired(c: Casing, s: State, labels: seq<Label>, raw: string)
    requires Reachable(c, s) && raw in s.world.tokens && Authenticate(s.world, raw).None?
    ensures Authenticate(Execute(c, s, labels).world, raw).None?
  {
    TokensAreFixed(c, s, labels, raw);
    ClockOnlyAdvances(c, s, labels);
  }

  // What one step adds to the clock: only an accepted advance adds anything.
  function Tick(s: State, l: Label): int {
    match l
    case OnControl(Advance(Some(d))) => if s.drafting.None? && d >= 0 then d else 0
    case _ => 0
  }

  ghost function Advanced(c: Casing, s: State, labels: seq<Label>): int {
    if labels == [] then 0 else
      var n := |labels| - 1;
      Advanced(c, s, labels[..n]) + Tick(Execute(c, s, labels[..n]), labels[n])
  }

  lemma StepTicks(c: Casing, s: State, l: Label)
    ensures Step(c, s, l).world.now == s.world.now + Tick(s, l)
  {
    hide ControlStep; hide PublicStep; hide RunStep; hide DeliveryStep; hide ReceiveStep;
    if !(s.drafting.Some? && NeedsLock(l)) {
      match l
      case OnControl(k) => ControlTicks(c, s, k);
      case OnPublic(p) => PublicFrame(c, s, p);
      case OnRun(r) => RunFrame(s, r);
      case OnDelivery(d) => DeliveryFrame(s, d);
      case OnReceive(r) => ReceiveFrame(c, s, r);
    }
  }

  lemma ControlTicks(c: Casing, s: State, l: ControlLabel)
    requires s.drafting.Some? ==> l.ClosePull?
    ensures ControlStep(c, s, l).world.now == s.world.now + Tick(s, OnControl(l))
  {
    hide RegisterRepository; hide NameTaken; hide RepoName; hide GitRefs; hide CheckPull; hide PermissionsValid;
    hide OwnerValid;
    match l
    case AddApp(_, _) =>
    case AddInstallation(_) =>
    case AddRepository(_, _, _, _) =>
    case OpenPull(_) =>
    case ClosePull =>
    case SetPullState(_, _) =>
    case Advance(_) =>
    case Configure(_, _, _) =>
    case Unsupport(_, _) =>
  }

  lemma {:induction false} ClockIsAdvanced(c: Casing, s: State, labels: seq<Label>)
    ensures Execute(c, s, labels).world.now == s.world.now + Advanced(c, s, labels)
    ensures Advanced(c, s, labels) >= 0
  {
    hide Step;
    if labels != [] {
      ClockIsAdvanced(c, s, labels[..|labels| - 1]);
      StepTicks(c, Execute(c, s, labels[..|labels| - 1]), labels[|labels| - 1]);
    }
  }

  lemma ClockOnlyAdvances(c: Casing, s: State, labels: seq<Label>)
    ensures s.world.now <= Execute(c, s, labels).world.now
  {
    ClockIsAdvanced(c, s, labels);
  }

  // The moments of a run at which one JWT is accepted form one interval of less than ten
  // minutes (its expiry is the exp claim of section 4.1.4 of RFC 7519).
  lemma JwtInterval(c: Casing, s: State, first: seq<Label>, second: seq<Label>, issuedAt: int, expiresAt: int)
    requires var s1 := Execute(c, s, first);
             JwtAccepted(issuedAt, expiresAt, s.world.now)
                 && JwtAccepted(issuedAt, expiresAt, Execute(c, s1, second).world.now)
    ensures var s1 := Execute(c, s, first);
            && JwtAccepted(issuedAt, expiresAt, s1.world.now)
            && Execute(c, s1, second).world.now - s.world.now < JWT_WINDOW
  {
    hide Execute;
    ClockOnlyAdvances(c, s, first);
    ClockOnlyAdvances(c, Execute(c, s, first), second);
  }

  // A JWT is accepted exactly from its issue, or ten minutes before its expiry if that is later,
  // up to but not at its expiry; the clock counts nanoseconds.
  lemma JwtMoments(issuedAt: int, expiresAt: int, now: int)
    ensures var opens := expiresAt - 10 * 60 * 1_000_000_000;
            JwtAccepted(issuedAt, expiresAt, now)
            <==> (if issuedAt < opens then opens else issuedAt) <= now < expiresAt
  {
  }

  // A token request whose JWT was just accepted, and the state in which it mints its token.
  predicate JustAccepted(s: State, id: int) {
    id in s.mints && s.mints[id].accepted && JwtAccepted(s.mints[id].issuedAt, s.mints[id].expiresAt, s.world.now)
  }

  predicate NotMintedBy(labels: seq<Label>, id: int) {
    forall k :: 0 <= k < |labels| ==> !(labels[k].OnPublic? && labels[k].public.MintToken? && labels[k].public.id == id)
  }

  lemma StepKeepsMint(c: Casing, s: State, l: Label, id: int)
    requires id in s.mints && s.mints[id].accepted && !(l.OnPublic? && l.public.MintToken? && l.public.id == id)
    ensures var s' := Step(c, s, l); id in s'.mints && s'.mints[id] == s.mints[id]
  {
    hide ControlStep; hide PublicStep; hide RunStep; hide DeliveryStep; hide ReceiveStep;
    if !(s.drafting.Some? && NeedsLock(l)) {
      match l
      case OnControl(k) => ControlFrame(c, s, k);
      case OnPublic(p) => PublicKeepsMint(c, s, p, id);
      case OnRun(r) => RunFrame(s, r);
      case OnDelivery(d) => DeliveryFrame(s, d);
      case OnReceive(r) => ReceiveFrame(c, s, r);
    }
  }

  lemma PublicKeepsMint(c: Casing, s: State, l: PublicLabel, id: int)
    requires id in s.mints && s.mints[id].accepted && !(l.MintToken? && l.id == id)
    ensures var s' := PublicStep(c, s, l); id in s'.mints && s'.mints[id] == s.mints[id]
  {
    hide CreateInstallationToken; hide CancelRun; hide Authenticate; hide GetStep; hide CheckMint;
    match l
    case FindIssuer(_, _, _, _, _, _) =>
    case CheckTimes(other) =>
      if other in s.mints && !s.mints[other].accepted {
        CheckedMint(s.mints, other, s.world.now);
      }
    case MintToken(_, _) =>
    case BeginCancel(_, _, _, _, _) =>
    case Cancel(_, _) =>
    case _ =>
      GetFrame(c, s, l);
      assert PublicStep(c, s, l) == GetStep(c, s, l);
  }

  lemma CheckedMint(mints: map<int, Mint>, id: int, now: int)
    requires id in mints
    ensures forall other :: other in mints && other != id ==>
              other in CheckMint(mints, id, now) && CheckMint(mints, id, now)[other] == mints[other]
  {
    hide JwtAccepted;
  }

  lemma {:induction false} RunKeepsMint(c: Casing, s: State, labels: seq<Label>, id: int)
    requires id in s.mints && s.mints[id].accepted && NotMintedBy(labels, id)
    ensures var s' := Execute(c, s, labels); id in s'.mints && s'.mints[id] == s.mints[id]
  {
    hide Step;
    if labels != [] {
      RunKeepsMint(c, s, labels[..|labels| - 1], id);
      StepKeepsMint(c, Execute(c, s, labels[..|labels| - 1]), labels[|labels| - 1], id);
    }
  }

  lemma MintedToken(c: Casing, s: State, id: int, value: string)
    requires id in s.mints && s.mints[id].accepted && value !in s.world.tokens
    requires value in PublicStep(c, s, MintToken(id, value)).world.tokens
    ensures PublicStep(c, s, MintToken(id, value)).world.tokens[value].expiresAt == s.world.now + TOKEN_LIFETIME
  {
    hide SelectRepositories; hide SelectPermissions;
  }

  // A token is dead by its JWT's expiry plus one hour exactly when, between the moment the JWT
  // was accepted and the moment the token was minted, the clock advanced no further than the
  // JWT had left to live. The two moments are separate locked regions, so it may.
  lemma MintDeadline(c: Casing, s: State, id: int, labels: seq<Label>, value: string)
    requires JustAccepted(s, id) && NotMintedBy(labels, id)
    requires var s1 := Execute(c, s, labels);
             value !in s1.world.tokens && value in PublicStep(c, s1, MintToken(id, value)).world.tokens
    ensures var t := PublicStep(c, Execute(c, s, labels), MintToken(id, value)).world.tokens[value];
            t.expiresAt <= s.mints[id].expiresAt + TOKEN_LIFETIME
            <==> Advanced(c, s, labels) <= s.mints[id].expiresAt - s.world.now
  {
    hide Execute; hide PublicStep; hide Advanced;
    RunKeepsMint(c, s, labels, id);
    ClockIsAdvanced(c, s, labels);
    MintedToken(c, Execute(c, s, labels), id, value);
  }

  function LateRequest(): TokenRequest {
    TokenRequest(1, [], [], None)
  }

  // A schedule that accepts a one-minute JWT, advances the clock two hours, and mints.
  function LateMint(now: int): seq<Label> {
    [OnControl(AddApp(App(1, "", ""), true)),
     OnControl(AddInstallation(InstallationInput(1, 1, true, "", "", map[]))),
     OnPublic(FindIssuer(7, true, 1, now, now + 60 * SECOND, LateRequest())),
     OnPublic(CheckTimes(7)),
     OnControl(Advance(Some(7200 * SECOND))),
     OnPublic(MintToken(7, "ghs_late"))]
  }

  // The JWT expired at now + 60 seconds; its token outlives that by almost three hours.
  lemma LateMintOutlivesDeadline(c: Casing, now: int)
    ensures var s := Execute(c, Start(now), LateMint(now));
            && Reachable(c, s)
            && "ghs_late" in s.world.tokens
            && s.world.tokens["ghs_late"].expiresAt > now + 60 * SECOND + TOKEN_LIFETIME
  {
    var labels := LateMint(now);
    LateSetup(c, now);
    var s4 := Execute(c, Start(now), labels[..4]);
    ExecuteNext(c, Start(now), labels, 4);
    ExecuteNext(c, Start(now), labels, 5);
    assert labels[..6] == labels;
    LateEnd(c, now, s4);
  }

  ghost predicate LateReady(now: int, s: State) {
    && s.drafting.None? && s.world.now == now && s.world.tokens == map[]
    && 1 in s.world.registry.installs && s.world.registry.installs[1] == Installation(1, 1, true, "", "", map[], {})
    && 7 in s.mints && s.mints[7] == Mint(1, now, now + 60 * SECOND, LateRequest(), true)
  }

  lemma ThirdAndFourth(c: Casing, s: State, labels: seq<Label>)
    requires |labels| >= 4
    ensures Execute(c, s, labels[..4]) == Step(c, Step(c, Execute(c, s, labels[..2]), labels[2]), labels[3])
  {
    hide *;
    ExecuteNext(c, s, labels, 2);
    ExecuteNext(c, s, labels, 3);
  }

  lemma LateSetup(c: Casing, now: int)
    ensures LateReady(now, Execute(c, Start(now), LateMint(now)[..4]))
  {
    var labels := LateMint(now);
    assert |labels| == 6;
    assert labels[2] == OnPublic(FindIssuer(7, true, 1, now, now + 60 * SECOND, LateRequest()))
           && labels[3] == OnPublic(CheckTimes(7));
    hide *;
    ThirdAndFourth(c, Start(now), labels);
    LateAccounts(c, now);
    LateRequested(c, now, Execute(c, Start(now), labels[..2]));
  }

  lemma LateRequested(c: Casing, now: int, s: State)
    requires LateAccountsReady(now, s)
    ensures LateReady(now, Step(c, Step(c, s, OnPublic(FindIssuer(7, true, 1, now, now + 60 * SECOND, LateRequest()))),
                                OnPublic(CheckTimes(7))))
  {
  }

  ghost predicate LateAccountsReady(now: int, s: State) {
    && s.drafting.None? && s.world.now == now && s.world.tokens == map[] && s.mints == map[]
    && 1 in s.world.registry.apps
    && 1 in s.world.registry.installs && s.world.registry.installs[1] == Installation(1, 1, true, "", "", map[], {})
  }

  lemma LateAccounts(c: Casing, now: int)
    ensures LateAccountsReady(now, Execute(c, Start(now), LateMint(now)[..2]))
  {
    var labels := LateMint(now);
    ExecuteNext(c, Start(now), labels, 0);
    ExecuteNext(c, Start(now), labels, 1);
    assert labels[..0] == [];
  }

  lemma LateEnd(c: Casing, now: int, s: State)
    requires LateReady(now, s)
    ensures var s' := Step(c, Step(c, s, OnControl(Advance(Some(7200 * SECOND)))), OnPublic(MintToken(7, "ghs_late")));
            "ghs_late" in s'.world.tokens
                && s'.world.tokens["ghs_late"].expiresAt == now + 7200 * SECOND + TOKEN_LIFETIME
  {
  }

  // Inside one installation a name selects at most one repository, so the answer to a token
  // request does not depend on the order in which the installation's repositories are tried.
  lemma SelectionIsUnique(c: Casing, s: State, installationID: int, name: string, a: int, b: int)
    requires Reachable(c, s) && installationID in s.world.registry.installs
    requires a in s.world.registry.installs[installationID].repositoryIDs && Matches(c, s.world.registry, a, name)
    requires b in s.world.registry.installs[installationID].repositoryIDs && Matches(c, s.world.registry, b, name)
    ensures a == b
  {
    AccessFacts(c, s);
    hide Reachable; hide AccountsOk; hide NamesOk; hide TokensOk;
    MatchIsUnique(c, s.world.registry, installationID, name, a, b);
  }

  // The name index answers every slash-free owner and name exactly as the repository table would.
  lemma IndexIsExact(c: Casing, s: State, owner: string, name: string, id: int)
    requires c.Valid() && Reachable(c, s) && '/' !in owner
    ensures var reg := s.world.registry;
            (RepoName(c, owner, name) in reg.repoNames && reg.repoNames[RepoName(c, owner, name)] == id)
            <==> (id in reg.repositories
                  && c.ToLower(reg.repositories[id].owner) == c.ToLower(owner)
                  && c.ToLower(reg.repositories[id].name) == c.ToLower(name))
  {
    AccessFacts(c, s);
    hide Reachable; hide TokensOk;
    IndexAgrees(c, s.world.registry, owner, name, id);
  }

  // Each repository belongs to the one installation it records, whose App exists, and has a receive lock.
  lemma RepositoriesArePartitioned(c: Casing, s: State, id: int, i: int)
    requires Reachable(c, s) && id in s.world.registry.repositories && i in s.world.registry.installs
    ensures var reg := s.world.registry;
            && (id in reg.installs[i].repositoryIDs <==> reg.repositories[id].installationID == i)
            && reg.repositories[id].installationID in reg.installs && reg.installs[i].appID in reg.apps
            && id in reg.receiveLocks
  {
    AccessFacts(c, s);
    hide Reachable; hide TokensOk; hide NamesOk; hide FoldsOk;
  }

  // A push is let through exactly for a stored, unexpired token that covers the repository the
  // request names in the repository table, with write access to contents.
  lemma PushIsAuthorized(c: Casing, s: State, raw: string, owner: string, name: string, id: int)
    requires c.Valid() && Reachable(c, s) && '/' !in owner && id in s.world.registry.repositories
    ensures var who := AuthorizePush(c, s.world, raw, owner, name);
            && ((who.Some? && who.value.1 == s.world.registry.repositories[id])
                <==> (&& Named(c, s.world.registry, owner, name, id) && Usable(s.world, raw, id)
                      && Writes(s.world.tokens[raw], "contents")))
            && (who.Some? ==> raw in s.world.tokens && who.value.0 == s.world.tokens[raw])
  {
    AccessFacts(c, s);
    IndexAgrees(c, s.world.registry, owner, name, id);
    hide Reachable; hide TokensOk; hide NamesOk; hide FoldsOk; hide RepoName;
    if raw in s.world.tokens {
      RankMeans(Lookup(s.world.tokens[raw].permissions, "contents"));
    }
    hide PermissionRank;
    var key := RepoName(c, owner, name);
    if key in s.world.registry.repoNames {
      KnownName(c, s.world.registry, key);
    }
  }

  // The repository's folded owner and name are the requested ones.
  predicate Named(c: Casing, reg: Registry, owner: string, name: string, id: int) {
    id in reg.repositories
    && c.ToLower(reg.repositories[id].owner) == c.ToLower(owner)
    && c.ToLower(reg.repositories[id].name) == c.ToLower(name)
  }

  predicate Usable(w: World, raw: string, id: int) {
    raw in w.tokens && w.now < w.tokens[raw].expiresAt && id in w.tokens[raw].repositoryIDs
  }

  lemma KnownName(c: Casing, reg: Registry, key: string)
    requires RegistryOk(c, reg) && key in reg.repoNames
    ensures reg.repoNames[key] in reg.repositories && reg.repositories[reg.repoNames[key]].id == reg.repoNames[key]
  {
  }

  // A pull request is readable exactly when it exists in the repository the request names, the
  // token covers that repository, and it may read pull requests or contents.
  lemma PullIsReadable(c: Casing, s: State, token: Token, owner: string, name: string, key: PullKey)
    requires c.Valid() && Reachable(c, s) && '/' !in owner && key.repositoryID in s.world.registry.repositories
    ensures var stored := ReadPull(c, s.world, token, owner, name, key.number);
            && ((stored.Some? && stored.value.key == key)
                <==> (&& Named(c, s.world.registry, owner, name, key.repositoryID)
                      && key.repositoryID in token.repositoryIDs
                      && (Reads(token, "pull_requests") || Reads(token, "contents")) && key in s.world.pulls))
            && (stored.Some? ==>
                  stored.value.key in s.world.pulls && stored.value.pull == s.world.pulls[stored.value.key])
  {
    RankMeans(Lookup(token.permissions, "pull_requests"));
    RankMeans(Lookup(token.permissions, "contents"));
    hide PermissionRank;
    AccessFacts(c, s);
    IndexAgrees(c, s.world.registry, owner, name, key.repositoryID);
    hide Reachable; hide TokensOk; hide RegistryOk; hide RepoName;
  }
}
