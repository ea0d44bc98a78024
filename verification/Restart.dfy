/** Histories read from any moment on: since no step reads where a history is said to start, the
    start may be moved to any moment at which the repository's lock is free. */
module Restart {
  import opened Text
  import opened RefListing
  import opened Model
  import opened EventLog
  import opened ControlRegions
  import opened PublicRegions
  import opened RunRegions
  import opened ReceiveRegions
  import opened RegistryProofs
  import opened LogProofs
  import opened RunProofs
  import opened ReceiveProofs
  import opened Twin
  import opened Invariants
  import opened Frames
  import opened Safety
  import opened Evolution

  // The same state with other auxiliary starting points.
  function WithInitial(s: State, initial: map<int, Base>): State {
    s.(initial := initial)
  }

  lemma ControlIgnoresInitial(c: Casing, s: State, l: ControlLabel, initial: map<int, Base>)
    ensures var s' := ControlStep(c, WithInitial(s, initial), l);
            s' == WithInitial(ControlStep(c, s, l), s'.initial)
  {
    hide CreateApp; hide CreateInstallation; hide CreateRepository; hide FinishPull; hide ChangePullState;
    hide AdvanceTime;
    hide ConfigureWorkflow; hide CheckPull; hide GitRefs;
    match l
    case AddApp(_, _) =>
    case AddInstallation(_) =>
    case AddRepository(_, _, _, _) =>
    case OpenPull(_) =>
    case ClosePull =>
    case SetPullState(_, _) =>
    case Advance(_) =>
    case Configure(_, _, _) =>
    case Unsupport(_, _) =>
  }

  lemma PublicIgnoresInitial(c: Casing, s: State, l: PublicLabel, initial: map<int, Base>)
    ensures PublicStep(c, WithInitial(s, initial), l) == WithInitial(PublicStep(c, s, l), initial)
  {
    hide CreateInstallationToken; hide CancelRun; hide Authenticate; hide CheckMint; hide ReadPull; hide Shown;
  }

  lemma RunIgnoresInitial(s: State, l: RunLabel, initial: map<int, Base>)
    ensures RunStep(WithInitial(s, initial), l) == WithInitial(RunStep(s, l), initial)
  {
    hide FindRun; hide CheckClaim; hide StartRun; hide FinishRun; hide TransitionRun; hide Claim;
  }

  lemma DeliveryIgnoresInitial(s: State, l: DeliveryLabel, initial: map<int, Base>)
    ensures DeliveryStep(WithInitial(s, initial), l) == WithInitial(DeliveryStep(s, l), initial)
  {
    hide DuplicateEvent; hide ReadDelivery; hide LogAttempt; hide AttemptOf;
  }

  lemma ReceiveIgnoresInitial(c: Casing, s: State, l: ReceiveLabel, initial: map<int, Base>)
    ensures ReceiveStep(c, WithInitial(s, initial), l) == WithInitial(ReceiveStep(c, s, l), initial)
  {
    hide AuthorizePush; hide RecordRefChanges; hide NextPhase; hide PackWorld; hide WithPack; hide GitRef;
  }

  lemma StepIgnoresInitial(c: Casing, s: State, l: Label, initial: map<int, Base>)
    ensures var s' := Step(c, WithInitial(s, initial), l);
            s' == WithInitial(Step(c, s, l), s'.initial)
  {
    hide ControlStep; hide PublicStep; hide RunStep; hide DeliveryStep; hide ReceiveStep;
    if !(s.drafting.Some? && NeedsLock(l)) {
      match l
      case OnControl(k) => ControlIgnoresInitial(c, s, k, initial);
      case OnPublic(p) => PublicIgnoresInitial(c, s, p, initial);
      case OnRun(r) => RunIgnoresInitial(s, r, initial);
      case OnDelivery(d) => DeliveryIgnoresInitial(s, d, initial);
      case OnReceive(r) => ReceiveIgnoresInitial(c, s, r, initial);
    }
  }

  lemma {:induction false} RunsIgnoreInitial(c: Casing, s: State, labels: seq<Label>, initial: map<int, Base>)
    ensures var s' := Execute(c, WithInitial(s, initial), labels);
            s' == WithInitial(Execute(c, s, labels), s'.initial)
  {
    hide Step;
    if labels != [] {
      var n := |labels| - 1;
      RunsIgnoreInitial(c, s, labels[..n], initial);
      StepIgnoresInitial(c, Execute(c, s, labels[..n]), labels[n],
                         Execute(c, WithInitial(s, initial), labels[..n]).initial);
    }
  }

  // The moment s as the start of a repository's history.
  function Now(s: State, repo: int): Base
    requires repo in s.git
  {
    Base(|s.world.log.events|, |s.world.errors|, Reading(s.git[repo]))
  }

  // With the lock free, the history that starts now is in order, whatever went unobserved before.
  lemma RestartKeeps(c: Casing, s: State, repo: int)
    requires Invariant(c, s) && repo in s.world.registry.repositories && repo in s.git && repo !in s.packs
    ensures Invariant(c, WithInitial(s, s.initial[repo := Now(s, repo)]))
  {
    RestartKeepsWorld(c, s, s.initial[repo := Now(s, repo)]);
    RestartKeepsRefs(s, repo);
    RestartKeepsHistory(s, repo);
    hide WorldOk; hide RefsOk; hide HistoryOk; hide RefreshesOk; hide PullsOk; hide DraftOk; hide Now;
  }

  lemma RestartKeepsRefs(s: State, repo: int)
    requires RefsOk(s.world.registry, s.git, s.initial, s.lastHeld) && repo in s.git
    ensures RefsOk(s.world.registry, s.git, s.initial[repo := Now(s, repo)], s.lastHeld)
  {
    hide GitRefs; hide HeldOk; hide Now;
  }

  lemma RestartKeepsHistory(s: State, repo: int)
    requires HistoryOk(s.world.log.events, s.world.errors, s.git, s.initial, s.packs) && repo in s.git
             && repo !in s.packs
    ensures HistoryOk(s.world.log.events, s.world.errors, s.git, s.initial[repo := Now(s, repo)], s.packs)
  {
    NothingYet(s.world.log.events, repo, s);
    hide Replay; hide Faithful;
    var initial := s.initial[repo := Now(s, repo)];
    forall r | r in s.git && r in initial && CleanSince(s.world.errors, initial[r].errors, r)
      ensures Tracked(s.world.log.events, r, initial[r], s.git[r], PackOf(s.packs, r))
    {
    }
  }

  lemma NothingYet(events: seq<Event>, repo: int, s: State)
    requires repo in s.git && events == s.world.log.events
    ensures Replay(events, repo, Now(s, repo)) == Reading(s.git[repo]) && Faithful(events, repo, Now(s, repo))
  {
  }

  lemma RestartKeepsWorld(c: Casing, s: State, initial: map<int, Base>)
    requires WorldOk(c, s)
    ensures WorldOk(c, WithInitial(s, initial))
  {
    hide RegistryOk; hide TokensOk; hide PushersOk; hide LogOk; hide CiOk; hide ExecutorsOk; hide SignalsOk;
    hide DeliveriesOk; hide SettledOk;
  }

  lemma HistoryFact(c: Casing, s: State, repo: int)
    requires Invariant(c, s) && repo in s.git && repo in s.initial && repo !in s.packs
             && CleanSince(s.world.errors, s.initial[repo].errors, repo)
    ensures Replay(s.world.log.events, repo, s.initial[repo]) == Reading(s.git[repo])
            && Faithful(s.world.log.events, repo, s.initial[repo])
  {
    hide WorldOk; hide PullsOk; hide RefreshesOk; hide DraftOk; hide RefsOk;
    assert Tracked(s.world.log.events, repo, s.initial[repo], s.git[repo], PackOf(s.packs, repo));
  }

  lemma GitFact(c: Casing, s: State)
    requires Invariant(c, s)
    ensures s.git.Keys == s.world.registry.repositories.Keys == s.initial.Keys
  {
  }

  // Between any two moments at which a repository's lock is free and between which none of its
  // pushes went unobserved, replaying the original push events recorded in between over what was
  // read of the earlier branches yields exactly what is read of the later ones, every event
  // truthful, and so exactly the later branches unless a name holds whitespace. What was lost
  // before the earlier moment does not matter.
  lemma HistoryBetween(c: Casing, s: State, labels: seq<Label>, repo: int)
    requires Reachable(c, s) && repo in s.world.registry.repositories && repo !in s.packs
    requires repo !in Execute(c, s, labels).packs
             && CleanSince(Execute(c, s, labels).world.errors, |s.world.errors|, repo)
    ensures var s' := Execute(c, s, labels);
            && repo in s.git && repo in s'.git
            && Replay(s'.world.log.events, repo, Now(s, repo)) == Reading(s'.git[repo])
            && (Replay(s'.world.log.events, repo, Now(s, repo)) == s'.git[repo] <==> SpaceFree(s'.git[repo]))
            && Faithful(s'.world.log.events, repo, Now(s, repo))
  {
    ReachableOk(c, s);
    GitFact(c, s);
    var initial := s.initial[repo := Now(s, repo)];
    RestartKeeps(c, s, repo);
    RunsIgnoreInitial(c, s, labels, initial);
    RunsEvolveStates(c, WithInitial(s, initial), labels);
    var s' := Execute(c, WithInitial(s, initial), labels);
    StartKept(WithInitial(s, initial), s', repo);
    GitFact(c, s');
    hide Reachable; hide Invariant; hide Evolves; hide Execute; hide Replay; hide Faithful; hide CleanSince;
    HistoryFact(c, s', repo);
    GitIsValid(c, s', repo);
  }

  lemma GitIsValid(c: Casing, s: State, repo: int)
    requires Invariant(c, s) && repo in s.git
    ensures Reading(s.git[repo]) == s.git[repo] <==> SpaceFree(s.git[repo])
  {
    assert GitRefs(s.git[repo]);
    ReadingIsValid(s.git[repo]);
  }

  lemma StartKept(s: State, s': State, repo: int)
    requires Evolves(s, s') && repo in s.initial
    ensures repo in s'.initial && s'.initial[repo] == s.initial[repo]
  {
    hide WorldEvolves; hide Stamped;
  }

  // Registration starts every history at the beginning of the log.
  ghost predicate Rooted(initial: map<int, Base>) {
    forall repo :: repo in initial ==> initial[repo].from == 0 && initial[repo].errors == 0
  }

  lemma StepKeepsRooted(c: Casing, s: State, l: Label)
    requires Rooted(s.initial)
    ensures Rooted(Step(c, s, l).initial)
  {
    hide ControlStep; hide PublicStep; hide RunStep; hide DeliveryStep; hide ReceiveStep;
    if !(s.drafting.Some? && NeedsLock(l)) {
      match l
      case OnControl(k) =>
        if k.AddRepository? {
          AddRepositoryStepIs(c, s, k);
          AddingFrame(c, s, k);
          hide AddRepositoryStep; hide CreateRepository;
        } else {
          SettingFrame(c, s, k);
        }
      case OnPublic(p) => PublicFrame(c, s, p);
      case OnRun(r) => RunFrame(s, r);
      case OnDelivery(d) => DeliveryFrame(s, d);
      case OnReceive(r) => ReceiveFrame(c, s, r);
    }
  }

  lemma {:induction false} RunsKeepRooted(c: Casing, s: State, labels: seq<Label>)
    requires Rooted(s.initial)
    ensures Rooted(Execute(c, s, labels).initial)
  {
    hide Step;
    if labels != [] {
      RunsKeepRooted(c, s, labels[..|labels| - 1]);
      StepKeepsRooted(c, Execute(c, s, labels[..|labels| - 1]), labels[|labels| - 1]);
    }
  }

  lemma ReachableRooted(c: Casing, s: State)
    requires Reachable(c, s)
    ensures Rooted(s.initial)
  {
    var now: int, labels: seq<Label> :| s == Execute(c, Start(now), labels);
    RunsKeepRooted(c, Start(now), labels);
  }
}
