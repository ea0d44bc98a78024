/** The steps of a Git push keep the invariant. */
module KeepsReceive {
  import opened Text
  import opened RefListing
  import opened Model
  import opened EventLog
  import opened ControlRegions
  import opened ReceiveRegions
  import opened RegistryProofs
  import opened LogProofs
  import opened RunProofs
  import opened ReceiveProofs
  import opened Twin
  import opened Invariants

  // One repository's push moves on: its phase, its refs and the ids its branches last held.
  function WithPhase(s: State, repo: int, pack: Option<Pack>, refs: Refs, held: Refs): State {
    s.(packs := WithPack(s.packs, repo, pack), git := s.git[repo := refs], lastHeld := s.lastHeld[repo := held])
  }

  // A side that was current or due for refresh stays so.
  ghost predicate SideKept(held: Refs, refs: Refs, pack: Option<Pack>, held': Refs, refs': Refs, pack': Option<Pack>,
                           key: PullKey, ref: string) {
    ref in held ==>
      && ref in held'
      && (held[ref] == held'[ref] || (ref in refs' && MayLag(pack', key, ref)))
      && (ref in refs && MayLag(pack, key, ref) ==> ref in refs' && MayLag(pack', key, ref))
  }

  ghost predicate IsPull(s: State, repo: int, key: PullKey) {
    key.repositoryID == repo && (key in s.world.pulls || (s.drafting.Some? && s.drafting.value.key == key))
  }

  ghost predicate PhaseOk(s: State, repo: int, pack: Option<Pack>, refs: Refs, held: Refs) {
    && repo in s.git && repo in s.lastHeld && repo in s.initial
    && (pack.Some? ==> PackOk(s.world.registry, repo, pack.value) && RefreshOk(s.world.pulls, refs, repo, pack.value))
    && GitRefs(refs) && HeldOk(refs, held) && DraftLive(s.drafting, refs, pack, repo)
    && (CleanSince(s.world.errors, s.initial[repo].errors, repo) ==>
          Tracked(s.world.log.events, repo, s.initial[repo], refs, pack))
    && (Clean(s.world.errors, repo) ==>
          forall key, ref :: IsPull(s, repo, key) ==>
               SideKept(s.lastHeld[repo], s.git[repo], PackOf(s.packs, repo), held, refs, pack, key, ref))
  }

  lemma PhaseKeeps(c: Casing, s: State, repo: int, pack: Option<Pack>, refs: Refs, held: Refs)
    requires Invariant(c, s) && PhaseOk(s, repo, pack, refs, held)
    ensures Invariant(c, WithPhase(s, repo, pack, refs, held))
  {
    PhaseKeepsWorld(c, s, repo, pack, refs, held);
    PhaseKeepsHistory(s, repo, pack, refs, held);
    PhaseKeepsPulls(s, repo, pack, refs, held);
    PhaseKeepsDraft(s, repo, pack, refs, held);
    PhaseKeepsRefs(s, repo, pack, refs, held);
    hide WorldOk; hide PhaseOk; hide RefsOk; hide HistoryOk; hide PullsOk; hide RefreshesOk; hide DraftOk;
  }

  lemma PhaseKeepsWorld(c: Casing, s: State, repo: int, pack: Option<Pack>, refs: Refs, held: Refs)
    requires WorldOk(c, s) && PhaseOk(s, repo, pack, refs, held)
    ensures WorldOk(c, WithPhase(s, repo, pack, refs, held))
  {
    hide RegistryOk; hide TokensOk; hide LogOk; hide CiOk; hide ExecutorsOk; hide SignalsOk; hide DeliveriesOk;
    hide SettledOk;
    hide Tracked; hide PackOk; hide RefreshOk; hide IsPull; hide SideKept;
  }

  lemma PhaseKeepsRefs(s: State, repo: int, pack: Option<Pack>, refs: Refs, held: Refs)
    requires GitOk(s) && PhaseOk(s, repo, pack, refs, held)
    ensures var s' := WithPhase(s, repo, pack, refs, held);
            RefsOk(s'.world.registry, s'.git, s'.initial, s'.lastHeld) && RefreshesOk(s'.world.pulls, s'.git, s'.packs)
  {
    hide PullsOk; hide HistoryOk; hide DraftOk; hide Tracked; hide RefreshOk; hide HeldOk; hide IsPull; hide SideKept;
    hide PackOk;
  }

  lemma PhaseKeepsHistory(s: State, repo: int, pack: Option<Pack>, refs: Refs, held: Refs)
    requires HistoryOk(s.world.log.events, s.world.errors, s.git, s.initial, s.packs)
             && PhaseOk(s, repo, pack, refs, held)
    ensures HistoryOk(s.world.log.events, s.world.errors, s.git[repo := refs], s.initial, WithPack(s.packs, repo, pack))
  {
    hide Tracked; hide RefreshOk; hide HeldOk; hide IsPull; hide SideKept; hide PackOk;
  }

  lemma PhaseKeepsPulls(s: State, repo: int, pack: Option<Pack>, refs: Refs, held: Refs)
    requires PullsOk(s.world.pulls, s.world.errors, s.git, s.lastHeld, s.packs) && PhaseOk(s, repo, pack, refs, held)
    ensures PullsOk(s.world.pulls, s.world.errors, s.git[repo := refs], s.lastHeld[repo := held],
                    WithPack(s.packs, repo, pack))
  {
    hide Tracked; hide RefreshOk; hide HeldOk; hide PackOk; hide MayLag;
    forall key | key in s.world.pulls && key.repositoryID == repo && Clean(s.world.errors, repo)
      ensures PullOk(held, refs, pack, key, s.world.pulls[key])
    {
      var pull := s.world.pulls[key];
      assert IsPull(s, repo, key);
      assert SideKept(s.lastHeld[repo], s.git[repo], PackOf(s.packs, repo), held, refs, pack, key, pull.baseRef);
      assert SideKept(s.lastHeld[repo], s.git[repo], PackOf(s.packs, repo), held, refs, pack, key, pull.headRef);
    }
  }

  lemma PhaseKeepsDraft(s: State, repo: int, pack: Option<Pack>, refs: Refs, held: Refs)
    requires DraftOk(s.world.registry, s.world.pulls, s.world.errors, s.git, s.lastHeld, s.packs, s.drafting)
    requires PhaseOk(s, repo, pack, refs, held)
    ensures DraftOk(s.world.registry, s.world.pulls, s.world.errors, s.git[repo := refs], s.lastHeld[repo := held],
                    WithPack(s.packs, repo, pack), s.drafting)
  {
    hide Tracked; hide RefreshOk; hide HeldOk; hide PackOk; hide MayLag;
    if s.drafting.Some? && s.drafting.value.key.repositoryID == repo && Clean(s.world.errors, repo) {
      var d := s.drafting.value;
      assert IsPull(s, repo, d.key);
      assert SideKept(s.lastHeld[repo], s.git[repo], PackOf(s.packs, repo), held, refs, pack, d.key, d.baseRef);
    }
  }

  // The facts about one repository and the push in flight on it, if any.
  lemma RepoFacts(c: Casing, s: State, repo: int)
    requires Invariant(c, s) && repo in s.world.registry.repositories
    ensures repo in s.git && repo in s.initial && repo in s.lastHeld && GitOf(s, repo) == s.git[repo]
    ensures s.initial[repo].from <= |s.world.log.events| && s.initial[repo].errors <= |s.world.errors|
    ensures repo in s.packs ==>
              PackOk(s.world.registry, repo, s.packs[repo])
                  && RefreshOk(s.world.pulls, s.git[repo], repo, s.packs[repo])
    ensures GitRefs(s.git[repo]) && HeldOk(s.git[repo], s.lastHeld[repo])
            && DraftLive(s.drafting, s.git[repo], PackOf(s.packs, repo), repo)
    ensures CleanSince(s.world.errors, s.initial[repo].errors, repo) ==>
              Tracked(s.world.log.events, repo, s.initial[repo], s.git[repo], PackOf(s.packs, repo))
  {
    DraftFact(s, repo);
    hide LogOk; hide CiOk; hide RegistryOk; hide TokensOk; hide PullsOk; hide DraftOk; hide PackOk; hide RefreshOk;
    hide Tracked;
    hide DraftLive;
    hide HeldOk; hide GitRefs; hide ExecutorsOk; hide SignalsOk; hide DeliveriesOk; hide SettledOk; hide PusherOk;
  }

  lemma DraftFact(s: State, repo: int)
    requires GitOk(s) && repo in s.git
    ensures DraftLive(s.drafting, s.git[repo], PackOf(s.packs, repo), repo)
  {
    hide RefsOk; hide HistoryOk; hide PullsOk; hide RefreshesOk; hide SideOk;
  }

  lemma PackRepo(c: Casing, s: State, repo: int)
    requires Invariant(c, s) && repo in s.packs
    ensures repo in s.world.registry.repositories
  {
    assert PackOk(s.world.registry, repo, s.packs[repo]);
  }

  // A phase change that moves no ref.
  ghost predicate StillOk(s: State, repo: int, pack: Option<Pack>) {
    && repo in s.git && repo in s.lastHeld && repo in s.initial
    && (pack.Some? ==>
          PackOk(s.world.registry, repo, pack.value) && RefreshOk(s.world.pulls, s.git[repo], repo, pack.value))
    && DraftLive(s.drafting, s.git[repo], pack, repo)
    && (CleanSince(s.world.errors, s.initial[repo].errors, repo) ==>
          Tracked(s.world.log.events, repo, s.initial[repo], s.git[repo], pack))
    && (Clean(s.world.errors, repo) ==>
          forall key, ref :: IsPull(s, repo, key) && MayLag(PackOf(s.packs, repo), key, ref) ==> MayLag(pack, key, ref))
  }

  lemma StillKeeps(c: Casing, s: State, repo: int, pack: Option<Pack>)
    requires Invariant(c, s) && repo in s.world.registry.repositories && StillOk(s, repo, pack)
    ensures Invariant(c, s.(packs := WithPack(s.packs, repo, pack)))
  {
    RepoFacts(c, s, repo);
    hide Invariant; hide GitRefs; hide HeldOk;
    StillIsPhase(s, repo, pack);
    hide StillOk; hide PhaseOk; hide WithPack; hide PackOk; hide RefreshOk; hide Tracked;
    PhaseKeeps(c, s, repo, pack, s.git[repo], s.lastHeld[repo]);
    StillPhaseIs(s, repo, pack);
  }

  lemma StillPhaseIs(s: State, repo: int, pack: Option<Pack>)
    requires repo in s.git && repo in s.lastHeld
    ensures WithPhase(s, repo, pack, s.git[repo], s.lastHeld[repo]) == s.(packs := WithPack(s.packs, repo, pack))
  {
    hide WithPack;
    assert s.git[repo := s.git[repo]] == s.git;
    assert s.lastHeld[repo := s.lastHeld[repo]] == s.lastHeld;
  }

  lemma StillIsPhase(s: State, repo: int, pack: Option<Pack>)
    requires StillOk(s, repo, pack) && GitRefs(s.git[repo]) && HeldOk(s.git[repo], s.lastHeld[repo])
    ensures PhaseOk(s, repo, pack, s.git[repo], s.lastHeld[repo])
  {
    hide GitRefs; hide HeldOk; hide PackOk; hide RefreshOk; hide Tracked; hide IsPull; hide MayLag;
  }

  lemma LockKeeps(c: Casing, s: State, id: int)
    requires Invariant(c, s)
    ensures Invariant(c, LockStep(s, id))
  {
    if id in s.waiting && s.waiting[id].repository.id !in s.packs {
      var x := s.waiting[id];
      assert PusherOk(s.world.registry, x.repository, x.token);
      var waiting := s.waiting - {id};
      WaitersMoveFreely(c, s, waiting);
      hide Invariant;
      LockPhase(c, s.(waiting := waiting), x);
    }
  }

  lemma LockPhase(c: Casing, s: State, x: Waiter)
    requires Invariant(c, s) && PusherOk(s.world.registry, x.repository, x.token) && x.repository.id !in s.packs
    ensures Invariant(c, s.(packs := s.packs[x.repository.id := Locked(x.repository, x.token)]))
  {
    RepoFacts(c, s, x.repository.id);
    hide Invariant; hide HeldOk; hide GitRefs; hide Tracked; hide TokenOk;
    LockedOk(s, x);
    hide StillOk; hide PusherOk;
    StillKeeps(c, s, x.repository.id, Some(Locked(x.repository, x.token)));
  }

  lemma LockedOk(s: State, x: Waiter)
    requires PusherOk(s.world.registry, x.repository, x.token) && x.repository.id !in s.packs
    requires x.repository.id in s.git && x.repository.id in s.initial && x.repository.id in s.lastHeld
    requires var repo := x.repository.id;
             CleanSince(s.world.errors, s.initial[repo].errors, repo) ==>
               Tracked(s.world.log.events, repo, s.initial[repo], s.git[repo], PackOf(s.packs, repo))
    ensures StillOk(s, x.repository.id, Some(Locked(x.repository, x.token)))
  {
    hide TokenOk; hide Faithful; hide Replay; hide IsPull;
  }

  // The steps that touch the pack alone: reading, listing, and giving the lock back.
  predicate PackOnly(l: ReceiveLabel) {
    l.SnapshotBefore? || (l.SnapshotAfter? && l.ok) || l.ResolvePull? || l.Unlock? || l.ListForRefresh?
  }

  lemma StillStepKeeps(c: Casing, s: State, repo: int, l: ReceiveLabel)
    requires Invariant(c, s) && repo in s.packs && PackOnly(l) && (l.ListForRefresh? ==> s.drafting.None?)
    ensures Invariant(c, PackStep(s, repo, s.packs[repo], l))
  {
    PackRepo(c, s, repo);
    RepoFacts(c, s, repo);
    StillStepIs(s, repo, l);
    assert PackReady(s, repo) by { hide PackOk; hide RefreshOk; hide GitRefs; hide DraftLive; hide Tracked;
                                  hide CleanSince; hide Invariant; }
    hide *;
    StillStepOk(s, repo, l);
    StillKeeps(c, s, repo, NextPhase(s.world, GitOf(s, repo), s.packs[repo], l));
  }

  lemma StillStepIs(s: State, repo: int, l: ReceiveLabel)
    requires repo in s.packs && PackOnly(l)
    ensures PackStep(s, repo, s.packs[repo], l)
            == s.(packs := WithPack(s.packs, repo, NextPhase(s.world, GitOf(s, repo), s.packs[repo], l)))
  {
    hide NextPhase; hide WithPack;
  }

  // What the steps of a pack may rely on.
  ghost predicate PackReady(s: State, repo: int) {
    && repo in s.packs && repo in s.git && repo in s.initial && repo in s.lastHeld && GitOf(s, repo) == s.git[repo]
    && PackOk(s.world.registry, repo, s.packs[repo]) && RefreshOk(s.world.pulls, s.git[repo], repo, s.packs[repo])
    && GitRefs(s.git[repo]) && DraftLive(s.drafting, s.git[repo], PackOf(s.packs, repo), repo)
    && (CleanSince(s.world.errors, s.initial[repo].errors, repo) ==>
          Tracked(s.world.log.events, repo, s.initial[repo], s.git[repo], PackOf(s.packs, repo)))
  }

  lemma StillStepOk(s: State, repo: int, l: ReceiveLabel)
    requires PackReady(s, repo) && PackOnly(l) && (l.ListForRefresh? ==> s.drafting.None?)
    ensures StillOk(s, repo, NextPhase(s.world, GitOf(s, repo), s.packs[repo], l))
  {
    hide PackReady; hide StillOk; hide NextPhase;
    match l
    case SnapshotBefore(_, _) => SnapshotStepOk(s, repo, l);
    case SnapshotAfter(_, _) => SnapshotStepOk(s, repo, l);
    case ResolvePull(_, _) => ResolveStepOk(s, repo, l);
    case Unlock(_) => UnlockStepOk(s, repo, l);
    case ListForRefresh(_) => ListStepOk(s, repo, l);
  }

  lemma SnapshotStepOk(s: State, repo: int, l: ReceiveLabel)
    requires PackReady(s, repo) && (l.SnapshotBefore? || (l.SnapshotAfter? && l.ok))
    ensures StillOk(s, repo, NextPhase(s.world, GitOf(s, repo), s.packs[repo], l))
  {
    ReadingIsValid(s.git[repo]);
    hide PusherOk; hide Faithful; hide Replay; hide GitRefs; hide ValidRefs; hide Reading; hide SpaceFree;
    hide LiveSides; hide IsPull;
    hide CleanSince;
    if l.SnapshotBefore? {
      FirstSnapshotOk(s, repo, l);
    } else {
      SecondSnapshotOk(s, repo, l);
    }
    hide StillOk; hide PackReady; hide NextPhase;
  }

  lemma FirstSnapshotOk(s: State, repo: int, l: ReceiveLabel)
    requires PackReady(s, repo) && l.SnapshotBefore? && ValidRefs(Reading(s.git[repo]))
    ensures StillOk(s, repo, NextPhase(s.world, GitOf(s, repo), s.packs[repo], l))
  {
    hide PusherOk; hide Faithful; hide Replay; hide GitRefs; hide ValidRefs; hide Reading; hide LiveSides; hide IsPull;
    hide CleanSince;
  }

  lemma SecondSnapshotOk(s: State, repo: int, l: ReceiveLabel)
    requires PackReady(s, repo) && l.SnapshotAfter? && l.ok && ValidRefs(Reading(s.git[repo]))
    ensures StillOk(s, repo, NextPhase(s.world, GitOf(s, repo), s.packs[repo], l))
  {
    hide PusherOk; hide Faithful; hide Replay; hide GitRefs; hide ValidRefs; hide Reading; hide LiveSides; hide IsPull;
    hide CleanSince;
  }

  lemma ResolveStepOk(s: State, repo: int, l: ReceiveLabel)
    requires PackReady(s, repo) && l.ResolvePull?
    ensures StillOk(s, repo, NextPhase(s.world, GitOf(s, repo), s.packs[repo], l))
  {
    hide PusherOk; hide Faithful; hide Replay; hide GitRefs; hide LiveSides; hide IsPull; hide CleanSince;
  }

  lemma UnlockStepOk(s: State, repo: int, l: ReceiveLabel)
    requires PackReady(s, repo) && l.Unlock?
    ensures StillOk(s, repo, NextPhase(s.world, GitOf(s, repo), s.packs[repo], l))
  {
    hide PusherOk; hide Faithful; hide Replay; hide GitRefs; hide LiveSides; hide IsPull; hide CleanSince;
  }

  lemma ListStepOk(s: State, repo: int, l: ReceiveLabel)
    requires PackReady(s, repo) && l.ListForRefresh? && s.drafting.None?
    ensures StillOk(s, repo, NextPhase(s.world, GitOf(s, repo), s.packs[repo], l))
  {
    hide PusherOk; hide Faithful; hide Replay; hide GitRefs; hide LiveSides; hide CleanSince;
  }

  lemma MoveKeeps(c: Casing, s: State, repo: int, ref: string, target: Option<string>)
    requires Invariant(c, s) && repo in s.packs && s.packs[repo].Serving?
    ensures Invariant(c, MoveStep(s, repo, ref, target))
  {
    PackRepo(c, s, repo);
    RepoFacts(c, s, repo);
    hide Invariant;
    var s' := MoveStep(s, repo, ref, target);
    MoveStepIs(s, repo, ref, target);
    if s' != s {
      MoveOk(s, repo, ref, target);
      hide PhaseOk; hide PackOk; hide RefreshOk; hide Tracked; hide GitRefs; hide HeldOk; hide MoveStep; hide WithPhase;
      PhaseKeeps(c, s, repo, Some(s.packs[repo].(touched := s.packs[repo].touched + {ref})), s'.git[repo],
                 s'.lastHeld[repo]);
    }
  }

  lemma MoveStepIs(s: State, repo: int, ref: string, target: Option<string>)
    requires repo in s.packs && s.packs[repo].Serving? && repo in s.git && repo in s.lastHeld
    ensures var s' := MoveStep(s, repo, ref, target);
            && repo in s'.git && repo in s'.lastHeld
            && (s' == s
                || s' == WithPhase(s, repo, Some(s.packs[repo].(touched := s.packs[repo].touched + {ref})),
                                   s'.git[repo], s'.lastHeld[repo]))
  {
    hide GitRef;
    assert s.lastHeld[repo := s.lastHeld[repo]] == s.lastHeld;
  }

  lemma MoveOk(s: State, repo: int, ref: string, target: Option<string>)
    requires repo in s.packs && s.packs[repo].Serving? && MoveStep(s, repo, ref, target) != s
    requires repo in s.git && repo in s.initial && repo in s.lastHeld && GitOf(s, repo) == s.git[repo]
    requires PackOk(s.world.registry, repo, s.packs[repo])
    requires GitRefs(s.git[repo]) && HeldOk(s.git[repo], s.lastHeld[repo])
    requires CleanSince(s.world.errors, s.initial[repo].errors, repo) ==>
              Tracked(s.world.log.events, repo, s.initial[repo], s.git[repo], PackOf(s.packs, repo))
    ensures var s' := MoveStep(s, repo, ref, target);
            PhaseOk(s, repo, Some(s.packs[repo].(touched := s.packs[repo].touched + {ref})), s'.git[repo],
                    s'.lastHeld[repo])
  {
    hide PusherOk; hide Faithful; hide Replay; hide NoSpace;
  }

  // A failed snapshot taints the repository: nothing further is claimed of its history.
  lemma ErrorKeeps(c: Casing, s: State, repo: int)
    requires Invariant(c, s) && repo in s.packs && s.packs[repo].Serving?
    ensures Invariant(c, PackStep(s, repo, s.packs[repo], SnapshotAfter(repo, false)))
  {
    PackRepo(c, s, repo);
    RepoFacts(c, s, repo);
    ErrorKeepsOthers(c, s, repo);
    ReleasingOk(s, repo);
    hide Invariant; hide Tracked; hide GitRefs; hide HeldOk; hide StillOk; hide RefreshOk;
    assert s.packs[repo].repository.id == repo;
    hide PackOk;
    var mid := s.(world := RecordObservationError(s.world, repo));
    StillKeeps(c, mid, repo, Some(Releasing(s.packs[repo].repository)));
    ErrorStepIs(s, repo);
  }

  lemma ErrorStepIs(s: State, repo: int)
    requires repo in s.packs && s.packs[repo].Serving? && s.packs[repo].repository.id == repo
    ensures PackStep(s, repo, s.packs[repo], SnapshotAfter(repo, false))
            == s.(world := RecordObservationError(s.world, repo),
                  packs := WithPack(s.packs, repo, Some(Releasing(s.packs[repo].repository))))
  {
    hide WithPack; hide RecordObservationError;
  }

  lemma ReleasingOk(s: State, repo: int)
    requires repo in s.packs && repo in s.git && repo in s.lastHeld && repo in s.initial
    requires PackOk(s.world.registry, repo, s.packs[repo]) && s.initial[repo].errors <= |s.world.errors|
    ensures StillOk(s.(world := RecordObservationError(s.world, repo)), repo, Some(Releasing(s.packs[repo].repository)))
  {
    hide Tracked; hide IsPull; hide MayLag; hide PusherOk; hide GitRefs;
    assert RecordObservationError(s.world, repo).errors[|s.world.errors|].repositoryID == repo;
  }

  lemma ErrorKeepsOthers(c: Casing, s: State, repo: int)
    requires Invariant(c, s)
    ensures Invariant(c, s.(world := RecordObservationError(s.world, repo)))
  {
    hide RegistryOk; hide TokensOk; hide PushersOk; hide LogOk; hide CiOk; hide ExecutorsOk; hide SignalsOk;
    hide DeliveriesOk; hide SettledOk;
    hide Tracked; hide PullOk; hide RefsOk; hide RefreshesOk; hide SideOk;
    var errors := RecordObservationError(s.world, repo).errors;
    forall n: nat, r | CleanSince(errors, n, r) ensures CleanSince(s.world.errors, n, r) {
      forall i | n <= i < |s.world.errors| ensures s.world.errors[i].repositoryID != r {
        assert errors[i] == s.world.errors[i];
      }
    }
  }

  // Writing a refreshed snapshot brings both sides up to date, whatever else was edited meanwhile.
  lemma WriteKeeps(c: Casing, s: State, repo: int)
    requires Invariant(c, s) && repo in s.packs && s.packs[repo].Writing?
    ensures Invariant(c, PackStep(s, repo, s.packs[repo], WritePull(repo)))
  {
    PackRepo(c, s, repo);
    RepoFacts(c, s, repo);
    WriteKeepsWorld(c, s, repo);
    WriteKeepsGit(s, repo);
    hide WorldOk; hide GitOk;
  }

  lemma WriteKeepsWorld(c: Casing, s: State, repo: int)
    requires WorldOk(c, s) && repo in s.packs && s.packs[repo].Writing?
    ensures WorldOk(c, PackStep(s, repo, s.packs[repo], WritePull(repo)))
  {
    hide RegistryOk; hide TokensOk; hide LogOk; hide CiOk; hide ExecutorsOk; hide SignalsOk; hide DeliveriesOk;
    hide SettledOk; hide PusherOk;
    assert PackOk(s.world.registry, repo, s.packs[repo]);
  }

  // The pull requests after the write.
  function Written(pulls: map<PullKey, Pull>, p: Pack): map<PullKey, Pull>
    requires p.Writing? && p.key in pulls
  {
    var pull := pulls[p.key];
    pulls[p.key := pull.(baseSHA := if p.baseSHA != "" then p.baseSHA else pull.baseSHA,
                         headSHA := if p.headSHA != "" then p.headSHA else pull.headSHA)]
  }

  lemma WriteKeepsGit(s: State, repo: int)
    requires GitOk(s) && repo in s.packs && s.packs[repo].Writing? && repo in s.git && repo in s.lastHeld
    requires RefreshOk(s.world.pulls, s.git[repo], repo, s.packs[repo])
    requires GitRefs(s.git[repo]) && HeldOk(s.git[repo], s.lastHeld[repo])
    ensures GitOk(PackStep(s, repo, s.packs[repo], WritePull(repo)))
  {
    var p := s.packs[repo];
    WriteStepIs(s, repo);
    hide PackStep; hide Written;
    WriteKeepsPulls(s.world.pulls, s.world.errors, s.git, s.lastHeld, s.packs, repo);
    WriteKeepsRefreshes(s.world.pulls, s.git, s.packs, repo);
    WriteKeepsHistory(s.world.log.events, s.world.errors, s.git, s.initial, s.packs, repo);
    WriteKeepsDraft(s.world.registry, s.world.pulls, s.world.errors, s.git, s.lastHeld, s.packs, s.drafting, repo);
    hide HistoryOk; hide PullsOk; hide RefreshesOk; hide RefsOk; hide DraftOk; hide HeldOk; hide GitRefs;
    hide RefreshOk;
  }

  lemma WriteStepIs(s: State, repo: int)
    requires repo in s.packs && s.packs[repo].Writing? && repo in s.git
             && RefreshOk(s.world.pulls, s.git[repo], repo, s.packs[repo])
    ensures var p := s.packs[repo];
            PackStep(s, repo, p, WritePull(repo))
            == s.(world := s.world.(pulls := Written(s.world.pulls, p)),
                  packs := s.packs[repo := Refreshing(p.repository, p.todo)])
  {
  }

  lemma WriteKeepsHistory(events: seq<Event>, errors: seq<ObservationError>, git: map<int, Refs>,
                          initial: map<int, Base>,
                          packs: map<int, Pack>, repo: int)
    requires HistoryOk(events, errors, git, initial, packs) && repo in packs && packs[repo].Writing?
    ensures HistoryOk(events, errors, git, initial, packs[repo := Refreshing(packs[repo].repository, packs[repo].todo)])
  {
    hide Faithful; hide Replay;
    var packs' := packs[repo := Refreshing(packs[repo].repository, packs[repo].todo)];
    forall r | r in git && r in initial && CleanSince(errors, initial[r].errors, r)
      ensures Tracked(events, r, initial[r], git[r], PackOf(packs', r)) {
      assert Tracked(events, r, initial[r], git[r], PackOf(packs, r));
    }
  }

  lemma WriteKeepsDraft(reg: Registry, pulls: map<PullKey, Pull>, errors: seq<ObservationError>, git: map<int, Refs>,
                        lastHeld: map<int, Refs>, packs: map<int, Pack>, drafting: Option<Draft>, repo: int)
    requires DraftOk(reg, pulls, errors, git, lastHeld, packs, drafting) && repo in packs && packs[repo].Writing?
             && packs[repo].key in pulls
    ensures DraftOk(reg, Written(pulls, packs[repo]), errors, git, lastHeld,
                    packs[repo := Refreshing(packs[repo].repository, packs[repo].todo)], drafting)
  {
  }

  lemma WriteKeepsRefreshes(pulls: map<PullKey, Pull>, git: map<int, Refs>, packs: map<int, Pack>, repo: int)
    requires RefreshesOk(pulls, git, packs) && repo in packs && packs[repo].Writing? && packs[repo].key in pulls
    requires repo in git && GitRefs(git[repo])
    ensures RefreshesOk(Written(pulls, packs[repo]), git,
                        packs[repo := Refreshing(packs[repo].repository, packs[repo].todo)])
  {
    var pulls' := Written(pulls, packs[repo]);
    var packs' := packs[repo := Refreshing(packs[repo].repository, packs[repo].todo)];
    assert forall ref :: ref in git[repo] ==> GitRef(ref, git[repo][ref]);
    hide GitRefs; hide NoSpace;
    forall r | r in packs' ensures r in git && RefreshOk(pulls', git[r], r, packs'[r]) {
      assert RefreshOk(pulls, git[r], r, packs[r]);
    }
  }

  // The refreshed side is exactly current.
  lemma WrittenSide(held: Refs, refs: Refs, pack: Option<Pack>, key: PullKey, ref: string, stored: string)
    requires GitRefs(refs) && HeldOk(refs, held) && SideOk(held, refs, pack, key, ref, stored)
    ensures ref in held && held[ref] == if Lookup(refs, ref) != "" then Lookup(refs, ref) else stored
  {
    assert ref in refs ==> GitRef(ref, refs[ref]);
  }

  lemma WriteKeepsPulls(pulls: map<PullKey, Pull>, errors: seq<ObservationError>, git: map<int, Refs>,
                        lastHeld: map<int, Refs>,
                        packs: map<int, Pack>, repo: int)
    requires PullsOk(pulls, errors, git, lastHeld, packs) && repo in packs && packs[repo].Writing? && repo in git
             && repo in lastHeld
    requires RefreshOk(pulls, git[repo], repo, packs[repo]) && GitRefs(git[repo]) && HeldOk(git[repo], lastHeld[repo])
    ensures PullsOk(Written(pulls, packs[repo]), errors, git, lastHeld,
                    packs[repo := Refreshing(packs[repo].repository, packs[repo].todo)])
  {
    hide GitRefs; hide HeldOk;
    var p := packs[repo];
    var pulls' := Written(pulls, p);
    var packs' := packs[repo := Refreshing(p.repository, p.todo)];
    forall key | key in pulls' && Clean(errors, key.repositoryID)
      ensures PullOk(lastHeld[key.repositoryID], git[key.repositoryID], PackOf(packs', key.repositoryID), key,
                     pulls'[key])
    {
      assert PullOk(lastHeld[key.repositoryID], git[key.repositoryID], PackOf(packs, key.repositoryID), key,
                    pulls[key]);
      if key == p.key {
        WrittenSide(lastHeld[repo], git[repo], PackOf(packs, repo), key, p.baseRef, pulls[key].baseSHA);
        WrittenSide(lastHeld[repo], git[repo], PackOf(packs, repo), key, p.headRef, pulls[key].headSHA);
      }
    }
  }

  // The push a handler is about to record is well formed.
  function PushOf(s: State, repo: int, ancestry: Ancestry): Push
    requires repo in s.packs && s.packs[repo].Observed?
  {
    var p := s.packs[repo];
    Push(s.world.registry, s.world.now, p.repository, p.token, p.before, p.after, ancestry)
  }

  lemma PushIsOk(c: Casing, s: State, repo: int, ancestry: Ancestry)
    requires Invariant(c, s) && repo in s.packs && s.packs[repo].Observed?
    ensures PushOk(PushOf(s, repo, ancestry))
  {
    assert PackOk(s.world.registry, repo, s.packs[repo]);
    assert PartitionOk(s.world.registry);
    hide Invariant;
  }

  ghost function RecordedOf(s: State, repo: int, ancestry: Ancestry): Recorded
    requires repo in s.packs && s.packs[repo].Observed?
  {
    var p := PushOf(s, repo, ancestry);
    RecordRefs(Recorded(s.world.log, s.world.ci), p, PushedRefs(p), |PushedRefs(p)|)
  }

  lemma RecordKeepsHistory(c: Casing, s: State, repo: int, ancestry: Ancestry)
    requires Invariant(c, s) && repo in s.packs && s.packs[repo].Observed?
    ensures HistoryOk(RecordedOf(s, repo, ancestry).log.events, s.world.errors, s.git, s.initial,
                      s.packs[repo := Recording(s.packs[repo].repository)])
  {
    PushIsOk(c, s, repo, ancestry);
    PackRepo(c, s, repo);
    var p := PushOf(s, repo, ancestry);
    assert p.repository.id == repo by { assert PackOk(s.world.registry, repo, s.packs[repo]); }
    assert HistoryOk(s.world.log.events, s.world.errors, s.git, s.initial, s.packs);
    hide Invariant; hide PushOk;
    RecordedHistory(Recorded(s.world.log, s.world.ci), p, s.world.errors, s.git, s.initial, s.packs);
  }

  lemma RecordedHistory(r: Recorded, p: Push, errors: seq<ObservationError>, git: map<int, Refs>,
                        initial: map<int, Base>,
                        packs: map<int, Pack>)
    requires HistoryOk(r.log.events, errors, git, initial, packs) && PushOk(p) && p.repository.id in packs
    requires packs[p.repository.id] == Observed(p.repository, p.token, p.before, p.after)
    ensures HistoryOk(RecordRefs(r, p, PushedRefs(p), |PushedRefs(p)|).log.events, errors, git, initial,
                      packs[p.repository.id := Recording(p.repository)])
  {
    hide PushOk; hide Replay; hide Faithful; hide RecordRefs;
    var events := RecordRefs(r, p, PushedRefs(p), |PushedRefs(p)|).log.events;
    var packs' := packs[p.repository.id := Recording(p.repository)];
    RecordRefsDescribe(r, p, PushedRefs(p), |PushedRefs(p)|);
    hide DescribesAll;
    forall k | k in git && k in initial && CleanSince(errors, initial[k].errors, k)
      ensures Tracked(events, k, initial[k], git[k], PackOf(packs', k)) {
      assert Tracked(r.log.events, k, initial[k], git[k], PackOf(packs, k));
      RecordingReplays(r, p, k, initial[k]);
    }
  }

  lemma RecordKeepsExecutors(reg: Registry, ci: Ci, ci': Ci, executors: map<int, Executor>)
    requires DenseRuns(ci) && DenseRuns(ci') && ExecutorsOk(reg, ci, executors) && SignalsOk(ci)
    requires ci.runs <= ci'.runs && ci'.active == ci.active
    ensures ExecutorsOk(reg, ci', executors) && SignalsOk(ci')
  {
    forall a | a in executors ensures ExecutorOk(reg, ci', a, executors[a]) {
      assert ExecutorOk(reg, ci, a, executors[a]);
      assert ci'.runs[executors[a].index] == ci.runs[executors[a].index];
    }
    forall i | 0 <= i < |ci'.runs| && ci'.runs[i].id in ci'.active && ci'.active[ci'.runs[i].id].cancellationSignalled
      ensures ci'.runs[i].cancellationRequested
    {
      var a :| a in executors && executors[a].runID == ci'.runs[i].id;
      assert ExecutorOk(reg, ci, a, executors[a]);
      assert ci.runs[executors[a].index].id == 1001 + executors[a].index && ci'.runs[i].id == 1001 + i;
      assert ci'.runs[i] == ci.runs[i];
    }
  }

  lemma RecordKeepsWorld(c: Casing, s: State, repo: int, ancestry: Ancestry)
    requires Invariant(c, s) && repo in s.packs && s.packs[repo].Observed?
    ensures var r := RecordedOf(s, repo, ancestry);
            && LogOk(s.world.registry, r.log, s.world.now) && CiOk(s.world.registry, r.ci, r.log)
            && ExecutorsOk(s.world.registry, r.ci, s.executors) && SignalsOk(r.ci)
            && DeliveriesOk(s.world.registry, r.log, s.deliveries, s.sent)
  {
    PushIsOk(c, s, repo, ancestry);
    RecordFacts(c, s);
    hide Invariant; hide PushOk; hide LogOk; hide HistoriesOk; hide RequestsOk; hide ExecutorsOk; hide SignalsOk;
    hide DeliveriesOk; hide SettledOk;
    hide RecordRefs; hide RunOk;
    var p := PushOf(s, repo, ancestry);
    var r := RecordedOf(s, repo, ancestry);
    RecordRefsKeep(Recorded(s.world.log, s.world.ci), p, PushedRefs(p), |PushedRefs(p)|);
    RecordKeepsExecutors(s.world.registry, s.world.ci, r.ci, s.executors);
    GrowsReflexive(s.world.registry);
    GrowthKeepsDeliveries(s.world.registry, s.world.registry, s.world.log, r.log, s.deliveries, s.sent);
  }

  lemma RecordFacts(c: Casing, s: State)
    requires Invariant(c, s)
    ensures LogOk(s.world.registry, s.world.log, s.world.now) && CiOk(s.world.registry, s.world.ci, s.world.log)
    ensures ExecutorsOk(s.world.registry, s.world.ci, s.executors) && SignalsOk(s.world.ci)
    ensures DeliveriesOk(s.world.registry, s.world.log, s.deliveries, s.sent)
  {
  }

  lemma RecordKeeps(c: Casing, s: State, repo: int, ancestry: Ancestry)
    requires Invariant(c, s) && repo in s.packs && s.packs[repo].Observed?
    ensures Invariant(c, ReceiveStep(c, s, RecordPush(repo, ancestry)))
  {
    hide Invariant; hide LogOk; hide CiOk; hide ExecutorsOk; hide SignalsOk; hide DeliveriesOk; hide SettledOk;
    hide HistoryOk;
    hide RecordRefs; hide PushedRefs;
    RecordKeepsWorld(c, s, repo, ancestry);
    RecordKeepsHistory(c, s, repo, ancestry);
    var s1 := s.(world := ReceiveStep(c, s, RecordPush(repo, ancestry)).world);
    RecordedPhase(c, s, s1, repo);
  }

  // After recording, the pack's phase is the only thing left to move.
  lemma RecordedPhase(c: Casing, s: State, s1: State, repo: int)
    requires Invariant(c, s) && repo in s.packs && s.packs[repo].Observed?
    requires s1 == s.(world := s.world.(log := s1.world.log, ci := s1.world.ci, mutations := s1.world.mutations))
    requires LogOk(s.world.registry, s1.world.log, s.world.now) && CiOk(s.world.registry, s1.world.ci, s1.world.log)
    requires ExecutorsOk(s.world.registry, s1.world.ci, s.executors) && SignalsOk(s1.world.ci)
    requires DeliveriesOk(s.world.registry, s1.world.log, s.deliveries, s.sent)
    requires HistoryOk(s1.world.log.events, s.world.errors, s.git, s.initial,
                       s.packs[repo := Recording(s.packs[repo].repository)])
    ensures Invariant(c, s1.(packs := s.packs[repo := Recording(s.packs[repo].repository)]))
  {
    hide RegistryOk; hide TokensOk; hide LogOk; hide CiOk; hide ExecutorsOk; hide SignalsOk; hide DeliveriesOk;
    hide SettledOk; hide HistoryOk;
    hide PusherOk; hide RefsOk;
    assert PackOk(s.world.registry, repo, s.packs[repo]);
    RecordedPulls(c, s, repo);
  }

  lemma RecordedPulls(c: Casing, s: State, repo: int)
    requires GitOk(s) && repo in s.packs && s.packs[repo].Observed?
    ensures var packs := s.packs[repo := Recording(s.packs[repo].repository)];
            && PullsOk(s.world.pulls, s.world.errors, s.git, s.lastHeld, packs)
            && RefreshesOk(s.world.pulls, s.git, packs)
            && DraftOk(s.world.registry, s.world.pulls, s.world.errors, s.git, s.lastHeld, packs, s.drafting)
  {
    hide HistoryOk; hide RefsOk;
    var packs := s.packs[repo := Recording(s.packs[repo].repository)];
    forall r | r in packs ensures r in s.git && RefreshOk(s.world.pulls, s.git[r], r, packs[r]) {
      assert RefreshOk(s.world.pulls, s.git[r], r, s.packs[r]);
    }
  }

  lemma BeginPushKeeps(c: Casing, s: State, id: int, raw: string, owner: string, name: string)
    requires Invariant(c, s)
    ensures Invariant(c, ReceiveStep(c, s, BeginPush(id, raw, owner, name)))
  {
    BeginPushIs(c, s, id, raw, owner, name);
    var who := AuthorizePush(c, s.world, raw, owner, name);
    hide *;
    if id !in s.waiting && who.Some? {
      AccessFacts(c, s);
      PusherAuthorized(c, s.world, raw, owner, name);
      var x := Waiter(who.value.0, who.value.1);
      WaiterJoins(s.world.registry, s.waiting, s.packs, id, x);
      WaitersMoveFreely(c, s, s.waiting[id := x]);
    }
  }

  lemma BeginPushIs(c: Casing, s: State, id: int, raw: string, owner: string, name: string)
    ensures var who := AuthorizePush(c, s.world, raw, owner, name);
            ReceiveStep(c, s, BeginPush(id, raw, owner, name))
            == if id !in s.waiting && who.Some? then s.(waiting := s.waiting[id := Waiter(who.value.0, who.value.1)])
                else s
  {
    hide AuthorizePush;
  }

  lemma WaiterJoins(reg: Registry, waiting: map<int, Waiter>, packs: map<int, Pack>, id: int, x: Waiter)
    requires PushersOk(reg, waiting, packs) && PusherOk(reg, x.repository, x.token)
    ensures PushersOk(reg, waiting[id := x], packs)
  {
    hide PackOk; hide PusherOk;
  }

  lemma AccessFacts(c: Casing, s: State)
    requires Invariant(c, s)
    ensures RegistryOk(c, s.world.registry) && TokensOk(s.world.registry, s.world.tokens, s.world.now)
    ensures PushersOk(s.world.registry, s.waiting, s.packs)
  {
  }

  lemma PusherAuthorized(c: Casing, w: World, raw: string, owner: string, name: string)
    requires RegistryOk(c, w.registry) && TokensOk(w.registry, w.tokens, w.now)
    requires AuthorizePush(c, w, raw, owner, name).Some?
    ensures var who := AuthorizePush(c, w, raw, owner, name).value;
            PusherOk(w.registry, who.1, who.0)
  {
    hide TokenOk;
  }

  lemma WaitersMoveFreely(c: Casing, s: State, waiting: map<int, Waiter>)
    requires Invariant(c, s) && PushersOk(s.world.registry, waiting, s.packs)
    ensures Invariant(c, s.(waiting := waiting))
  {
    hide RegistryOk; hide TokensOk; hide PushersOk; hide LogOk; hide CiOk; hide ExecutorsOk; hide SignalsOk;
    hide DeliveriesOk; hide SettledOk;
    hide RefsOk; hide HistoryOk; hide PullsOk; hide RefreshesOk; hide DraftOk;
  }

  // A step its handler is not ready for changes nothing.
  lemma IdleStep(s: State, repo: int, l: ReceiveLabel)
    requires repo in s.packs
    requires (l.SnapshotAfter? && !s.packs[repo].Serving?) || (l.WritePull? && !s.packs[repo].Writing?)
    ensures PackStep(s, repo, s.packs[repo], l) == s
  {
    assert s.packs[repo := s.packs[repo]] == s.packs;
  }

  lemma ReceiveKeeps(c: Casing, s: State, l: ReceiveLabel)
    requires Invariant(c, s) && (l.ListForRefresh? ==> s.drafting.None?)
    ensures Invariant(c, ReceiveStep(c, s, l))
  {
    hide Invariant; hide AuthorizePush; hide RecordRefChanges; hide MoveStep; hide PackStep;
    match l
    case BeginPush(id, raw, owner, name) => BeginPushKeeps(c, s, id, raw, owner, name);
    case Lock(id) => LockKeeps(c, s, id);
    case RecordPush(repo, ancestry) =>
      if repo in s.packs && s.packs[repo].Observed? {
        RecordKeeps(c, s, repo, ancestry);
      }
    case MoveRef(repo, ref, target) =>
      if repo in s.packs && s.packs[repo].Serving? {
        MoveKeeps(c, s, repo, ref, target);
      }
    case SnapshotAfter(repo, ok) =>
      if repo in s.packs {
        if ok {
          StillStepKeeps(c, s, repo, l);
        } else if s.packs[repo].Serving? {
          ErrorKeeps(c, s, repo);
        } else {
          IdleStep(s, repo, l);
        }
      }
    case WritePull(repo) =>
      if repo in s.packs {
        if s.packs[repo].Writing? {
          WriteKeeps(c, s, repo);
        } else {
          IdleStep(s, repo, l);
        }
      }
    case _ => if l.repo in s.packs { StillStepKeeps(c, s, l.repo, l); }
  }
}
