/** Which components each handler's steps touch: everything else is left as it was. */
module Frames {
  import opened Text
  import opened RefListing
  import opened Model
  import opened EventLog
  import opened ControlRegions
  import opened PublicRegions
  import opened RunRegions
  import opened ReceiveRegions
  import opened Twin

  lemma ControlFrame(c: Casing, s: State, l: ControlLabel)
    ensures var s' := ControlStep(c, s, l);
            s' == s.(world := s'.world, drafting := s'.drafting, git := s'.git, initial := s'.initial,
                     lastHeld := s'.lastHeld)
  {
    if l.AddRepository? {
      AddingFrame(c, s, l);
    } else {
      SettingFrame(c, s, l);
    }
    hide ControlStep;
  }

  lemma AddingFrame(c: Casing, s: State, l: ControlLabel)
    requires l.AddRepository?
    ensures var s' := ControlStep(c, s, l);
            && s' == AddRepositoryStep(c, s, l)
            && s' == s.(world := s'.world, git := s'.git, initial := s'.initial, lastHeld := s'.lastHeld)
  {
    hide CreateRepository; hide GitRefs;
  }

  lemma SettingFrame(c: Casing, s: State, l: ControlLabel)
    requires !l.AddRepository?
    ensures var s' := ControlStep(c, s, l);
            s' == s.(world := s'.world, drafting := s'.drafting)
  {
    if l.OpenPull? || l.ClosePull? {
      DraftingFrame(c, s, l);
    } else {
      WorldFrame(c, s, l);
    }
    hide ControlStep;
  }

  lemma DraftingFrame(c: Casing, s: State, l: ControlLabel)
    requires l.OpenPull? || l.ClosePull?
    ensures var s' := ControlStep(c, s, l);
            s' == s.(world := s'.world, drafting := s'.drafting)
  {
    hide FinishPull; hide CheckPull; hide DraftOf;
  }

  lemma WorldFrame(c: Casing, s: State, l: ControlLabel)
    requires !l.AddRepository? && !l.OpenPull? && !l.ClosePull?
    ensures var s' := ControlStep(c, s, l);
            s' == s.(world := s'.world)
  {
    hide CreateApp; hide CreateInstallation; hide ChangePullState; hide AdvanceTime; hide ConfigureWorkflow;
    hide RecordUnsupported;
  }

  // Control handlers touch neither tokens, runs nor deliveries.
  lemma ControlWorldFrame(c: Casing, s: State, l: ControlLabel)
    ensures var w := ControlStep(c, s, l).world;
            w == s.world.(now := w.now, registry := w.registry, pulls := w.pulls, log := w.log,
                          unsupported := w.unsupported, mutations := w.mutations)
  {
    hide RegisterRepository; hide NameTaken; hide RepoName; hide GitRefs; hide CheckPull; hide PermissionsValid;
    hide OwnerValid; hide AppendInstallationEvent; hide AppendRepositoriesEvent; hide Reading;
    match l
    case AddApp(_, _) =>
    case AddInstallation(_) =>
    case AddRepository(_, _, _, _) =>
    case OpenPull(_) =>
    case ClosePull =>
    case SetPullState(_, _) =>
    case Advance(_) =>
    case Configure(_, _, _) =>
    case Unsupport(_, _) =>
  }

  lemma PublicFrame(c: Casing, s: State, l: PublicLabel)
    ensures var s' := PublicStep(c, s, l);
            && s' == s.(world := s'.world, mints := s'.mints, cancels := s'.cancels, gets := s'.gets, shown := s'.shown)
            && s'.world == s.world.(tokens := s'.world.tokens, ci := s'.world.ci, mutations := s'.world.mutations)
            && (!l.MintToken? && !l.Cancel? ==> s'.world == s.world)
  {
    hide PublicStep;
    match l
    case FindIssuer(_, _, _, _, _, _) => RequestFrame(c, s, l);
    case CheckTimes(_) => RequestFrame(c, s, l);
    case MintToken(id, value) => MintTokenFrame(c, s, id, value);
    case BeginCancel(_, _, _, _, _) => RequestFrame(c, s, l);
    case Cancel(id, delivered) => CancelStepFrame(c, s, id, delivered);
    case _ => GetStepFrame(c, s, l);
  }

  lemma RequestFrame(c: Casing, s: State, l: PublicLabel)
    requires l.FindIssuer? || l.CheckTimes? || l.BeginCancel?
    ensures var s' := PublicStep(c, s, l); s' == s.(mints := s'.mints, cancels := s'.cancels)
  {
    hide Authenticate; hide CheckMint; hide GetStep;
  }

  lemma GetStepFrame(c: Casing, s: State, l: PublicLabel)
    requires l.BeginGet? || l.ReadStored? || l.ResolveBase? || l.ResolveHead?
    ensures var s' := PublicStep(c, s, l); s' == s.(gets := s'.gets, shown := s'.shown)
  {
    GetFrame(c, s, l);
    hide GetStep;
  }

  lemma MintTokenFrame(c: Casing, s: State, id: int, value: string)
    ensures var s' := PublicStep(c, s, MintToken(id, value));
            && s' == s.(world := s'.world, mints := s'.mints)
            && s'.world == s.world.(tokens := s'.world.tokens, mutations := s'.world.mutations)
  {
    hide CreateInstallationToken;
    if MayMint(s, id, value) {
      MintFrame(c, s.world, s.mints[id].appID, s.mints[id].request, value);
    }
  }

  lemma CancelStepFrame(c: Casing, s: State, id: int, delivered: bool)
    ensures var s' := PublicStep(c, s, Cancel(id, delivered));
            && s' == s.(world := s'.world, cancels := s'.cancels)
            && s'.world == s.world.(ci := s'.world.ci, mutations := s'.world.mutations)
  {
    hide CancelWorld;
    if id in s.cancels {
      CancelFrame(c, s.world, s.cancels[id], delivered);
    }
  }

  lemma MintFrame(c: Casing, w: World, appID: int, request: TokenRequest, value: string)
    ensures var w' := CreateInstallationToken(c, w, appID, request, value).world;
            w' == w.(tokens := w'.tokens, mutations := w'.mutations)
  {
    hide SelectRepositories; hide SelectPermissions;
  }

  lemma CancelFrame(c: Casing, w: World, r: Cancellation, delivered: bool)
    ensures var w' := CancelWorld(c, w, r, delivered);
            w' == w.(ci := w'.ci, mutations := w'.mutations)
  {
    hide RepoName; hide FindRunIn; hide Interrupt;
  }

  // Reading a pull request changes nothing but its own handler and what readers were shown.
  lemma GetFrame(c: Casing, s: State, l: PublicLabel)
    requires l.BeginGet? || l.ReadStored? || l.ResolveBase? || l.ResolveHead?
    ensures var s' := GetStep(c, s, l);
            s' == s.(gets := s'.gets, shown := s'.shown)
  {
    hide Authenticate; hide ReadPull; hide Shown; hide AfterRead;
    match l
    case BeginGet(id, raw, owner, name, number) =>
      if id !in s.gets && Authenticate(s.world, raw).Some? {
        assert GetStep(c, s, l) == s.(gets :=
                                      s.gets[id := Asked(Authenticate(s.world, raw).value, owner, name, number)]);
      } else {
        assert GetStep(c, s, l) == s;
      }
    case ReadStored(id) =>
    case ResolveBase(id) =>
    case ResolveHead(id) =>
  }

  lemma RunFrame(s: State, l: RunLabel)
    ensures var s' := RunStep(s, l);
            && s' == s.(world := s'.world, executors := s'.executors)
            && s'.world == s.world.(ci := s'.world.ci, log := s'.world.log, mutations := s'.world.mutations)
  {
    hide FindRun; hide CheckClaim; hide AppendRunEvent; hide TransitionAction;
    match l
    case ClaimRun(_, _) =>
    case Abandon(_) =>
    case StartProcess(_, _) =>
    case StopProcesses =>
    case FinishProcess(_, _, _) =>
    case Transition(_, _, _) =>
  }

  lemma DeliveryFrame(s: State, l: DeliveryLabel)
    ensures var s' := DeliveryStep(s, l);
            && s' == s.(world := s'.world, deliveries := s'.deliveries, sent := s'.sent, logged := s'.logged)
            && s'.world == s.world.(log := s'.world.log, attempts := s'.world.attempts, mutations := s'.world.mutations)
  {
    hide FindEvent; hide DuplicateAt; hide ReadDelivery; hide AttemptOf; hide PostOf;
  }

  lemma ReceiveFrame(c: Casing, s: State, l: ReceiveLabel)
    ensures var s' := ReceiveStep(c, s, l);
            && s' == s.(world := s'.world, git := s'.git, packs := s'.packs, waiting := s'.waiting,
                        lastHeld := s'.lastHeld)
            && s'.world == s.world.(pulls := s'.world.pulls, ci := s'.world.ci, log := s'.world.log,
                                    errors := s'.world.errors, mutations := s'.world.mutations)
            && (!l.MoveRef? ==> s'.git == s.git && s'.lastHeld == s.lastHeld)
  {
    hide ReceiveStep;
    match l
    case BeginPush(_, _, _, _) => QueueFrame(c, s, l);
    case Lock(_) => QueueFrame(c, s, l);
    case RecordPush(repo, ancestry) => RecordPushFrame(c, s, repo, ancestry);
    case MoveRef(repo, ref, target) => MoveRefFrame(c, s, repo, ref, target);
    case _ => HandlerFrame(c, s, l);
  }

  lemma QueueFrame(c: Casing, s: State, l: ReceiveLabel)
    requires l.BeginPush? || l.Lock?
    ensures var s' := ReceiveStep(c, s, l); s' == s.(packs := s'.packs, waiting := s'.waiting)
  {
    hide LockStep; hide AuthorizePush;
    if l.Lock? {
      LockFrame(s, l.id);
    }
  }

  lemma RecordPushFrame(c: Casing, s: State, repo: int, ancestry: Ancestry)
    ensures var s' := ReceiveStep(c, s, RecordPush(repo, ancestry));
            && s' == s.(world := s'.world, packs := s'.packs)
            && s'.world == s.world.(ci := s'.world.ci, log := s'.world.log, mutations := s'.world.mutations)
  {
    hide RecordedWorld;
    if IsObserved(s, repo) {
      RecordFrame(s, repo, ancestry);
    }
  }

  lemma MoveRefFrame(c: Casing, s: State, repo: int, ref: string, target: Option<string>)
    ensures var s' := ReceiveStep(c, s, MoveRef(repo, ref, target));
            s' == s.(git := s'.git, packs := s'.packs, lastHeld := s'.lastHeld)
  {
    hide MoveStep;
    if repo in s.packs && s.packs[repo].Serving? {
      MoveFrame(s, repo, ref, target);
    }
  }

  lemma HandlerFrame(c: Casing, s: State, l: ReceiveLabel)
    requires !l.BeginPush? && !l.Lock? && !l.RecordPush? && !l.MoveRef?
    ensures var s' := ReceiveStep(c, s, l);
            && s' == s.(world := s'.world, packs := s'.packs)
            && s'.world == s.world.(pulls := s'.world.pulls, errors := s'.world.errors)
  {
    hide PackStep;
    if l.repo in s.packs {
      PackFrame(s, l.repo, s.packs[l.repo], l);
    }
  }

  lemma LockFrame(s: State, id: int)
    ensures var s' := LockStep(s, id); s' == s.(packs := s'.packs, waiting := s'.waiting)
  {
  }

  lemma MoveFrame(s: State, repo: int, ref: string, target: Option<string>)
    requires repo in s.packs && s.packs[repo].Serving?
    ensures var s' := MoveStep(s, repo, ref, target);
            s' == s.(git := s'.git, packs := s'.packs, lastHeld := s'.lastHeld)
  {
    hide GitRef;
  }

  lemma RecordFrame(s: State, repo: int, ancestry: Ancestry)
    requires IsObserved(s, repo)
    ensures var w' := RecordedWorld(s, repo, ancestry);
            w' == s.world.(ci := w'.ci, log := w'.log, mutations := w'.mutations)
  {
    hide RecordRefs; hide PushedRefs;
  }

  lemma PackFrame(s: State, repo: int, p: Pack, l: ReceiveLabel)
    ensures var s' := PackStep(s, repo, p, l);
            && s' == s.(world := s'.world, packs := s'.packs) && s'.world == PackWorld(s.world, p, l)
            && s'.world == s.world.(pulls := s'.world.pulls, errors := s'.world.errors)
  {
    hide NextPhase; hide WithPack;
  }
}
