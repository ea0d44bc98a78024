/** What holds between any two steps of the twin. */
module Invariants {
  import opened Text
  import opened RefListing
  import opened Model
  import opened EventLog
  import opened ControlRegions
  import opened PublicRegions
  import opened RegistryProofs
  import opened LogProofs
  import opened RunProofs
  import opened ReceiveProofs
  import opened Twin

  // A token stays within its installation, in repositories and in permission ranks.
  ghost predicate TokenOk(reg: Registry, t: Token) {
    && t.installationID in reg.installs
    && t.repositoryIDs <= reg.installs[t.installationID].repositoryIDs
    && Narrows(reg.installs[t.installationID].permissions, t.permissions)
  }

  ghost predicate TokensOk(reg: Registry, tokens: map<string, Token>, now: int) {
    forall v :: v in tokens ==>
      tokens[v].value == v && TokenOk(reg, tokens[v]) && tokens[v].expiresAt <= now + TOKEN_LIFETIME
  }

  // A push handler carries a registered repository that its token covers.
  ghost predicate PusherOk(reg: Registry, repository: Repository, token: Token) {
    && repository.id in reg.repositories && reg.repositories[repository.id] == repository
    && TokenOk(reg, token) && repository.id in token.repositoryIDs
  }

  ghost predicate PackOk(reg: Registry, repo: int, p: Pack) {
    && p.repository.id == repo && repo in reg.repositories && reg.repositories[repo] == p.repository
    && (p.Locked? || p.Serving? || p.Observed? ==> PusherOk(reg, p.repository, p.token))
    && (p.Serving? || p.Observed? ==> ValidRefs(p.before))
    && (p.Observed? ==> ValidRefs(p.after))
  }

  ghost predicate PushersOk(reg: Registry, waiting: map<int, Waiter>, packs: map<int, Pack>) {
    && (forall id :: id in waiting ==> PusherOk(reg, waiting[id].repository, waiting[id].token))
    && (forall repo :: repo in packs ==> PackOk(reg, repo, packs[repo]))
  }

  // What an executor's claim looks like while it prepares and while its process runs.
  ghost predicate ExecutorOk(reg: Registry, ci: Ci, id: int, e: Executor) {
    && e.index < |ci.runs| && ci.runs[e.index].id == e.runID && e.runID in ci.active
    && ci.runs[e.index].repositoryID in reg.repositories
    && reg.repositories[ci.runs[e.index].repositoryID] == e.repository
    && match e
       case Preparing(_, _, _, _) => ci.runs[e.index].status == Queued && ci.active[e.runID] == ActiveRun(None, false)
       case Running(_, _, _) => ci.runs[e.index].status == InProgress && ci.active[e.runID].command == Some(id)
  }

  // The claims and the executors in flight correspond one to one.
  ghost predicate ExecutorsOk(reg: Registry, ci: Ci, executors: map<int, Executor>) {
    && (forall id :: id in executors ==> ExecutorOk(reg, ci, id, executors[id]))
    && (forall a, b :: a in executors && b in executors && executors[a].runID == executors[b].runID ==> a == b)
    && (forall runID :: runID in ci.active ==> exists id :: id in executors && executors[id].runID == runID)
  }

  // A delivered interrupt implies an accepted cancellation.
  ghost predicate SignalsOk(ci: Ci) {
    forall i :: 0 <= i < |ci.runs| && ci.runs[i].id in ci.active && ci.active[ci.runs[i].id].cancellationSignalled ==>
      ci.runs[i].cancellationRequested
  }

  // No push to a repository went unobserved, from the error at index n on.
  ghost predicate CleanSince(errors: seq<ObservationError>, n: nat, repo: int) {
    forall i :: n <= i < |errors| ==> errors[i].repositoryID != repo
  }

  ghost predicate Clean(errors: seq<ObservationError>, repo: int) {
    CleanSince(errors, 0, repo)
  }

  function PackOf(packs: map<int, Pack>, repo: int): Option<Pack> {
    if repo in packs then Some(packs[repo]) else None
  }

  // The log has told the whole history of what was read of a repository's refs, up to the push in flight.
  ghost predicate Tracked(events: seq<Event>, repo: int, start: Base, refs: Refs, pack: Option<Pack>) {
    var seen := Replay(events, repo, start);
    && Faithful(events, repo, start)
    && match pack
       case Some(Serving(_, _, before, _)) => before == seen
       case Some(Observed(_, _, before, after)) => before == seen && after == Reading(refs)
       case _ => Reading(refs) == seen
  }

  // Every live branch names the object it was last moved to.
  ghost predicate HeldOk(refs: Refs, held: Refs) {
    forall ref :: ref in refs ==> ref in held && held[ref] == refs[ref]
  }

  ghost predicate RefsOk(reg: Registry, git: map<int, Refs>, initial: map<int, Base>, lastHeld: map<int, Refs>) {
    && git.Keys == reg.repositories.Keys && initial.Keys == reg.repositories.Keys
    && lastHeld.Keys == reg.repositories.Keys
    && forall repo :: repo in git ==> GitRefs(git[repo]) && HeldOk(git[repo], lastHeld[repo])
  }

  ghost predicate HistoryOk(events: seq<Event>, errors: seq<ObservationError>, git: map<int, Refs>,
                            initial: map<int, Base>,
                            packs: map<int, Pack>) {
    forall repo :: repo in git && repo in initial ==>
      && initial[repo].from <= |events| && initial[repo].errors <= |errors|
      && (CleanSince(errors, initial[repo].errors, repo) ==>
            Tracked(events, repo, initial[repo], git[repo], PackOf(packs, repo)))
  }

  // The push in flight has yet to refresh this pull request's copy of a moved branch.
  ghost predicate MayLag(pack: Option<Pack>, key: PullKey, ref: string) {
    match pack
    case Some(Serving(_, _, _, touched)) => ref in touched
    case Some(Observed(_, _, _, _)) => true
    case Some(Recording(_)) => true
    case Some(Refreshing(_, todo)) => key in todo
    case Some(Writing(_, todo, current, _, _, _, _)) => key in todo || key == current
    case _ => false
  }

  // A stored object id is the last one its branch held, or a refresh is due and the branch is live.
  ghost predicate SideOk(held: Refs, refs: Refs, pack: Option<Pack>, key: PullKey, ref: string, sha: string) {
    ref in held && (held[ref] == sha || (ref in refs && MayLag(pack, key, ref)))
  }

  ghost predicate PullOk(held: Refs, refs: Refs, pack: Option<Pack>, key: PullKey, pull: Pull) {
    SideOk(held, refs, pack, key, pull.baseRef, pull.baseSHA)
        && SideOk(held, refs, pack, key, pull.headRef, pull.headSHA)
  }

  ghost predicate PullsOk(pulls: map<PullKey, Pull>, errors: seq<ObservationError>, git: map<int, Refs>,
                          lastHeld: map<int, Refs>,
                          packs: map<int, Pack>) {
    forall key :: key in pulls ==>
      && key.repositoryID in git && key.repositoryID in lastHeld
      && (Clean(errors, key.repositoryID) ==>
            PullOk(lastHeld[key.repositoryID], git[key.repositoryID], PackOf(packs, key.repositoryID), key, pulls[key]))
  }

  // Each side of a pull request whose branch is live stores that branch's object id.
  ghost predicate LiveSides(refs: Refs, pull: Pull) {
    (pull.baseRef in refs ==> refs[pull.baseRef] == pull.baseSHA)
        && (pull.headRef in refs ==> refs[pull.headRef] == pull.headSHA)
  }

  predicate MidRefresh(p: Pack) {
    p.Refreshing? || p.Writing?
  }

  // A refresh works on listed pull requests of its own repository, with ids read from the live
  // refs, and has brought the live sides of every other one up to date.
  ghost predicate RefreshOk(pulls: map<PullKey, Pull>, refs: Refs, repo: int, p: Pack) {
    && (p.Refreshing? || p.Writing? ==>
          forall key :: key in p.todo ==>
            key in pulls && key.repositoryID == repo && p.todo[key] == (pulls[key].baseRef, pulls[key].headRef))
    && (p.Writing? ==>
          && p.key in pulls && p.key.repositoryID == repo
          && p.baseRef == pulls[p.key].baseRef && p.headRef == pulls[p.key].headRef
          && p.baseSHA == Lookup(refs, p.baseRef) && p.headSHA == Lookup(refs, p.headRef))
    && (MidRefresh(p) ==>
          forall key :: key in pulls && key.repositoryID == repo && key !in p.todo && !(p.Writing? && key == p.key) ==>
            LiveSides(refs, pulls[key]))
  }

  // A draft's base side, read while a refresh is under way, is the live branch's.
  ghost predicate DraftLive(drafting: Option<Draft>, refs: Refs, pack: Option<Pack>, repo: int) {
    (drafting.Some? && drafting.value.key.repositoryID == repo && drafting.value.baseSHA != "" && pack.Some?
     && MidRefresh(pack.value)) ==>
      (drafting.value.baseRef in refs ==> refs[drafting.value.baseRef] == drafting.value.baseSHA)
  }

  ghost predicate RefreshesOk(pulls: map<PullKey, Pull>, git: map<int, Refs>, packs: map<int, Pack>) {
    forall repo :: repo in packs ==> repo in git && RefreshOk(pulls, git[repo], repo, packs[repo])
  }

  ghost predicate DraftOk(reg: Registry, pulls: map<PullKey, Pull>, errors: seq<ObservationError>, git: map<int, Refs>,
                          lastHeld: map<int, Refs>, packs: map<int, Pack>, drafting: Option<Draft>) {
    drafting.Some? ==>
      var d := drafting.value;
      && d.key !in pulls && d.key.repositoryID in git && d.key.repositoryID in lastHeld
      && DraftLive(drafting, git[d.key.repositoryID], PackOf(packs, d.key.repositoryID), d.key.repositoryID)
      && (Clean(errors, d.key.repositoryID) && d.baseSHA != "" ==>
            SideOk(lastHeld[d.key.repositoryID], git[d.key.repositoryID], PackOf(packs, d.key.repositoryID), d.key,
                   d.baseRef, d.baseSHA))
  }

  // A message is event k's, sent to that event's App under its secret.
  ghost predicate TakenFrom(reg: Registry, log: Log, p: Post, k: nat) {
    && k < |log.events| && log.events[k].guid == p.guid && log.events[k].kind == p.kind && log.events[k].body == p.body
    && log.events[k].appID in reg.apps
    && reg.apps[log.events[k].appID].webhookURL == p.destination
    && reg.apps[log.events[k].appID].webhookSecret == p.secret
  }

  ghost predicate Genuine(reg: Registry, log: Log, p: Post) {
    exists k: nat :: TakenFrom(reg, log, p, k)
  }

  ghost predicate DeliveringOk(reg: Registry, log: Log, d: Delivering) {
    match d
    case Fetched(delivery) => Genuine(reg, log, PostOf(delivery))
    case Answered(_, _) => true
  }

  ghost predicate DeliveriesOk(reg: Registry, log: Log, deliveries: map<int, Delivering>, sent: seq<Post>) {
    && (forall id :: id in deliveries ==> DeliveringOk(reg, log, deliveries[id]))
    && (forall i :: 0 <= i < |sent| ==> Genuine(reg, log, sent[i]))
  }

  // An attempt tells the truth about the message it is about.
  predicate Answers(p: Post, a: Attempt) {
    a.guid == p.guid && a.destination == p.destination && a.invalidSignature == p.invalidSignature
  }

  predicate Awaits(deliveries: map<int, Delivering>, id: int, k: nat) {
    id in deliveries && deliveries[id].Answered? && deliveries[id].post == k
  }

  // The handlers between the answer to their message and its record.
  function AnsweredIDs(deliveries: map<int, Delivering>): set<int> {
    set id | id in deliveries && deliveries[id].Answered?
  }

  // Every message sent is recorded by one attempt or awaits it in one handler.
  ghost predicate SettledOk(deliveries: map<int, Delivering>, attempts: seq<Attempt>, sent: seq<Post>,
                            logged: seq<nat>) {
    && |logged| == |attempts| && |attempts| + |AnsweredIDs(deliveries)| == |sent|
    && (forall i :: 0 <= i < |logged| ==> logged[i] < |sent| && Answers(sent[logged[i]], attempts[i]))
    && (forall i, j :: 0 <= i < j < |logged| ==> logged[i] != logged[j])
    && (forall id, k: nat :: Awaits(deliveries, id, k) ==>
          k < |sent| && Answers(sent[k], deliveries[id].attempt) && k !in logged)
    && (forall a, b, k: nat :: Awaits(deliveries, a, k) && Awaits(deliveries, b, k) ==> a == b)
    && (forall k: nat :: k < |sent| && k !in logged ==> exists id :: Awaits(deliveries, id, k))
  }

  // The part about the shared world and the handlers inside it.
  ghost predicate WorldOk(c: Casing, s: State) {
    && RegistryOk(c, s.world.registry)
    && TokensOk(s.world.registry, s.world.tokens, s.world.now)
    && PushersOk(s.world.registry, s.waiting, s.packs)
    && LogOk(s.world.registry, s.world.log, s.world.now)
    && CiOk(s.world.registry, s.world.ci, s.world.log)
    && ExecutorsOk(s.world.registry, s.world.ci, s.executors)
    && SignalsOk(s.world.ci)
    && DeliveriesOk(s.world.registry, s.world.log, s.deliveries, s.sent)
    && SettledOk(s.deliveries, s.world.attempts, s.sent, s.logged)
  }

  // The part about Git's refs and what the world remembers of them.
  ghost predicate GitOk(s: State) {
    && RefsOk(s.world.registry, s.git, s.initial, s.lastHeld)
    && HistoryOk(s.world.log.events, s.world.errors, s.git, s.initial, s.packs)
    && PullsOk(s.world.pulls, s.world.errors, s.git, s.lastHeld, s.packs)
    && RefreshesOk(s.world.pulls, s.git, s.packs)
    && DraftOk(s.world.registry, s.world.pulls, s.world.errors, s.git, s.lastHeld, s.packs, s.drafting)
  }

  ghost predicate Invariant(c: Casing, s: State) {
    WorldOk(c, s) && GitOk(s)
  }

  lemma StartOk(c: Casing, now: int)
    ensures Invariant(c, Start(now))
  {
    StartWorldOk(c, now);
    StartGitOk(now);
    hide WorldOk; hide GitOk; hide Start;
  }

  lemma StartWorldOk(c: Casing, now: int)
    ensures WorldOk(c, Start(now))
  {
    StartRunsOk(now);
    assert SettledOk(map[], [], [], []);
    hide SettledOk; hide CiOk; hide ExecutorsOk; hide SignalsOk;
  }

  lemma StartRunsOk(now: int)
    ensures var w := EmptyWorld(now);
            CiOk(w.registry, w.ci, w.log) && ExecutorsOk(w.registry, w.ci, map[]) && SignalsOk(w.ci)
  {
  }

  lemma StartGitOk(now: int)
    ensures GitOk(Start(now))
  {
    hide Tracked; hide PullOk; hide RefreshOk; hide GitRefs; hide HeldOk;
  }

  // The registry may grow under every other component.
  lemma GrowthKeepsTokens(reg: Registry, reg': Registry, tokens: map<string, Token>, now: int)
    requires TokensOk(reg, tokens, now) && Grows(reg, reg')
    ensures TokensOk(reg', tokens, now)
  {
    forall v | v in tokens ensures TokenOk(reg', tokens[v]) {
      GrowthKeepsToken(reg, reg', tokens[v]);
    }
  }

  lemma GrowthKeepsToken(reg: Registry, reg': Registry, t: Token)
    requires TokenOk(reg, t) && Grows(reg, reg')
    ensures TokenOk(reg', t)
  {
    assert InstallationGrows(reg.installs[t.installationID], reg'.installs[t.installationID]);
  }

  lemma GrowthKeepsPushers(reg: Registry, reg': Registry, waiting: map<int, Waiter>, packs: map<int, Pack>)
    requires PushersOk(reg, waiting, packs) && Grows(reg, reg')
    ensures PushersOk(reg', waiting, packs)
  {
    forall id | id in waiting ensures PusherOk(reg', waiting[id].repository, waiting[id].token) {
      GrowthKeepsToken(reg, reg', waiting[id].token);
    }
    forall repo | repo in packs ensures PackOk(reg', repo, packs[repo]) {
      var p := packs[repo];
      if p.Locked? || p.Serving? || p.Observed? {
        GrowthKeepsToken(reg, reg', p.token);
      }
    }
  }

  lemma GrowthKeepsCi(reg: Registry, reg': Registry, ci: Ci, log: Log, executors: map<int, Executor>)
    requires CiOk(reg, ci, log) && ExecutorsOk(reg, ci, executors) && Grows(reg, reg')
    ensures CiOk(reg', ci, log) && ExecutorsOk(reg', ci, executors)
  {
    forall id | id in executors ensures ExecutorOk(reg', ci, id, executors[id]) {
      assert ExecutorOk(reg, ci, id, executors[id]);
    }
    forall i | 0 <= i < |ci.runs| ensures RunOk(reg', ci.runs[i]) {
      assert RunOk(reg, ci.runs[i]);
    }
  }

  // Growing the registry and the log keeps every delivery honest.
  lemma GrowthKeepsDeliveries(reg: Registry, reg': Registry, log: Log, log': Log,
                              deliveries: map<int, Delivering>, sent: seq<Post>)
    requires DeliveriesOk(reg, log, deliveries, sent) && Grows(reg, reg') && log.events <= log'.events
    ensures DeliveriesOk(reg', log', deliveries, sent)
  {
    forall id | id in deliveries ensures DeliveringOk(reg', log', deliveries[id]) {
      if deliveries[id].Fetched? {
        GrowthKeepsGenuine(reg, reg', log, log', PostOf(deliveries[id].delivery));
      }
    }
    forall i | 0 <= i < |sent| ensures Genuine(reg', log', sent[i]) {
      GrowthKeepsGenuine(reg, reg', log, log', sent[i]);
    }
  }

  lemma GrowthKeepsGenuine(reg: Registry, reg': Registry, log: Log, log': Log, p: Post)
    requires Genuine(reg, log, p) && Grows(reg, reg') && log.events <= log'.events
    ensures Genuine(reg', log', p)
  {
    var k: nat :| TakenFrom(reg, log, p, k);
    assert log'.events[k] == log.events[k];
    assert TakenFrom(reg', log', p, k);
  }

  // An event that is no original push of the repository leaves its tracked history as it is.
  lemma SilentKeepsHistory(log: Log, log': Log, now: int, e: Event, errors: seq<ObservationError>, git: map<int, Refs>,
                           initial: map<int, Base>, packs: map<int, Pack>)
    requires HistoryOk(log.events, errors, git, initial, packs) && Added(log, log', now, e)
    requires !(e.body.PushBody? && e.origin == |log.events|)
    ensures HistoryOk(log'.events, errors, git, initial, packs)
  {
    forall repo | repo in git && repo in initial && CleanSince(errors, initial[repo].errors, repo)
      ensures Tracked(log'.events, repo, initial[repo], git[repo], PackOf(packs, repo))
    {
      SilentKeepsReplay(log, log', now, e, repo, initial[repo]);
    }
  }

  // One registered event, silent for refs and runs, appended by any handler.
  lemma SilentAppend(c: Casing, s: State, log': Log, e: Event, k: nat)
    requires Invariant(c, s) && Added(s.world.log, log', s.world.now, e) && AddressOk(s.world.registry, e)
    requires k <= |s.world.log.events|
    requires if k == |s.world.log.events| then e.origin == k && !e.body.PushBody? && !e.body.RunBody?
             else e.origin == s.world.log.events[k].origin && SameContent(e, s.world.log.events[k])
    ensures LogOk(s.world.registry, log', s.world.now) && CiOk(s.world.registry, s.world.ci, log')
    ensures DeliveriesOk(s.world.registry, log', s.deliveries, s.sent)
    ensures HistoryOk(log'.events, s.world.errors, s.git, s.initial, s.packs)
  {
    AddedKeepsLog(s.world.registry, s.world.log, log', s.world.now, e, k);
    if k < |s.world.log.events| {
      assert OriginOk(s.world.log.events, k);
    }
    SilentKeepsCi(s.world.registry, s.world.ci, s.world.log, log', s.world.now, e);
    GrowsReflexive(s.world.registry);
    GrowthKeepsDeliveries(s.world.registry, s.world.registry, s.world.log, log', s.deliveries, s.sent);
    SilentKeepsHistory(s.world.log, log', s.world.now, e, s.world.errors, s.git, s.initial, s.packs);
  }
}
