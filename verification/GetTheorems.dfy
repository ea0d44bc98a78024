/** PullRequests.Get under every schedule: it reads the stored pull request under the lock and
    resolves its two branches later, one after the other, while pushes go on. */
module GetTheorems {
  import opened Text
  import opened RefListing
  import opened Model
  import opened ControlRegions
  import opened PublicRegions
  import opened Twin
  import opened Invariants
  import opened Frames
  import opened Safety
  import opened PushTheorems

  // The last object id a branch is remembered to have held.
  ghost function Held(s: State, repo: int, ref: string): Option<string> {
    if repo in s.lastHeld && ref in s.lastHeld[repo] then Some(s.lastHeld[repo][ref]) else None
  }

  // The last object id a branch named over a run, looking at the repository after each step; the
  // one it held before if it was absent throughout.
  ghost function LastNamed(c: Casing, s: State, labels: seq<Label>, repo: int, ref: string): Option<string> {
    var refs := GitOf(Execute(c, s, labels), repo);
    if ref in refs then Some(refs[ref])
    else if labels == [] then Held(s, repo, ref)
    else LastNamed(c, s, labels[..|labels| - 1], repo, ref)
  }

  // In this state, the step moves this branch to an object, on behalf of the push being served.
  predicate Raises(s: State, l: Label, repo: int, ref: string) {
    && l.OnReceive? && l.receive.MoveRef? && l.receive.repo == repo && l.receive.ref == ref && l.receive.target.Some?
    && repo in s.packs && s.packs[repo].Serving? && ref !in s.packs[repo].touched && GitRef(ref, l.receive.target.value)
  }

  // The object that pushes last moved a branch to over a run; None if they moved it to none.
  ghost function LastTarget(c: Casing, s: State, labels: seq<Label>, repo: int, ref: string): Option<string> {
    if labels == [] then None else
      var n := |labels| - 1;
      if Raises(Execute(c, s, labels[..n]), labels[n], repo, ref) then labels[n].receive.target
      else LastTarget(c, s, labels[..n], repo, ref)
  }

  // What a step does to a branch of a registered repository: it is moved to an object, which is
  // then what it held last, or it names no new object and what it held last stays.
  ghost predicate RefStep(s: State, s': State, l: Label, repo: int, ref: string) {
    && repo in s'.git
    && if Raises(s, l, repo, ref)
       then ref in s'.git[repo] && Some(s'.git[repo][ref]) == l.receive.target == Held(s', repo, ref)
       else Held(s', repo, ref) == Held(s, repo, ref)
  }

  lemma StillRefs(s: State, s': State, l: Label, repo: int, ref: string)
    requires repo in s.git && s'.git == s.git && s'.lastHeld == s.lastHeld && !(l.OnReceive? && l.receive.MoveRef?)
    ensures RefStep(s, s', l, repo, ref)
  {
    hide GitRef;
  }

  lemma AddingKeepsRef(c: Casing, s: State, l: ControlLabel, repo: int, ref: string)
    requires l.AddRepository? && repo in s.git && repo in s.world.registry.repositories
    ensures RefStep(s, ControlStep(c, s, l), OnControl(l), repo, ref)
  {
    hide GitRefs; hide RegisterRepository; hide NameTaken; hide RepoName; hide ValidPathComponent;
    hide AppendRepositoriesEvent;
    hide Reading; hide GitRef;
  }

  lemma MoveIsRefStep(s: State, moved: int, branch: string, target: Option<string>, repo: int, ref: string)
    requires moved in s.packs && s.packs[moved].Serving? && repo in s.git && repo in s.lastHeld
    ensures RefStep(s, MoveStep(s, moved, branch, target), OnReceive(MoveRef(moved, branch, target)), repo, ref)
  {
    hide GitRef;
  }

  lemma IdleIsRefStep(s: State, l: Label, repo: int, ref: string)
    requires repo in s.git && !Raises(s, l, repo, ref)
    ensures RefStep(s, s, l, repo, ref)
  {
    hide Raises; hide Held;
  }

  lemma ReceiveIsRefStep(c: Casing, s: State, l: ReceiveLabel, repo: int, ref: string)
    requires repo in s.git && repo in s.lastHeld
    ensures RefStep(s, ReceiveStep(c, s, l), OnReceive(l), repo, ref)
  {
    hide RefStep; hide MoveStep; hide GitRef;
    if l.MoveRef? {
      if l.repo in s.packs && s.packs[l.repo].Serving? {
        MoveIsRefStep(s, l.repo, l.ref, l.target, repo, ref);
      } else {
        IdleIsRefStep(s, OnReceive(l), repo, ref);
      }
    } else {
      ReceiveFrame(c, s, l);
      hide ReceiveStep;
      StillRefs(s, ReceiveStep(c, s, l), OnReceive(l), repo, ref);
    }
  }

  lemma StepIsRefStep(c: Casing, s: State, l: Label, repo: int, ref: string)
    requires repo in s.git && repo in s.lastHeld && repo in s.world.registry.repositories
    ensures RefStep(s, Step(c, s, l), l, repo, ref)
  {
    hide ControlStep; hide PublicStep; hide RunStep; hide DeliveryStep; hide ReceiveStep; hide RefStep; hide GitRef;
    if s.drafting.Some? && NeedsLock(l) {
      IdleIsRefStep(s, l, repo, ref);
    } else {
      match l
      case OnControl(k) =>
        if k.AddRepository? {
          AddingKeepsRef(c, s, k, repo, ref);
        } else {
          SettingFrame(c, s, k);
          StillRefs(s, ControlStep(c, s, k), l, repo, ref);
        }
      case OnPublic(p) =>
        PublicFrame(c, s, p);
        StillRefs(s, PublicStep(c, s, p), l, repo, ref);
      case OnRun(r) =>
        RunFrame(s, r);
        StillRefs(s, RunStep(s, r), l, repo, ref);
      case OnDelivery(d) =>
        DeliveryFrame(s, d);
        StillRefs(s, DeliveryStep(s, d), l, repo, ref);
      case OnReceive(r) => ReceiveIsRefStep(c, s, r, repo, ref);
    }
  }

  lemma RepoHeld(c: Casing, s: State, repo: int)
    requires Invariant(c, s) && repo in s.git
    ensures repo in s.lastHeld && repo in s.world.registry.repositories && GitOf(s, repo) == s.git[repo]
    ensures GitRefs(s.git[repo]) && HeldOk(s.git[repo], s.lastHeld[repo])
  {
    hide WorldOk; hide HistoryOk; hide PullsOk; hide RefreshesOk; hide DraftOk; hide GitRefs; hide HeldOk;
  }

  // A live branch is remembered to hold what it names.
  lemma HeldIsLive(c: Casing, s: State, repo: int, ref: string)
    requires Invariant(c, s) && repo in s.git
    ensures GitOf(s, repo) == s.git[repo] && (ref in s.git[repo] ==> Held(s, repo, ref) == Some(s.git[repo][ref]))
  {
    RepoHeld(c, s, repo);
    hide Invariant; hide GitRefs;
  }

  // One step on the way: a branch's last id is the one it is moved to, or the one it had.
  lemma HeldNext(c: Casing, s: State, l: Label, repo: int, ref: string)
    requires Invariant(c, s) && repo in s.git
    ensures var s' := Step(c, s, l);
            && repo in s'.git && GitOf(s', repo) == s'.git[repo] && Invariant(c, s')
            && (ref in s'.git[repo] ==> Held(s', repo, ref) == Some(s'.git[repo][ref]))
            && Held(s', repo, ref) == (if Raises(s, l, repo, ref) then l.receive.target else Held(s, repo, ref))
            && (ref !in s'.git[repo] ==> Held(s', repo, ref) == Held(s, repo, ref))
  {
    StepKeeps(c, s, l);
    RepoHeld(c, s, repo);
    StepIsRefStep(c, s, l, repo, ref);
    hide Invariant; hide Step; hide Held; hide HeldOk; hide GitRefs; hide Raises;
    HeldIsLive(c, Step(c, s, l), repo, ref);
  }

  // What the model remembers a branch to have held last is what an onlooker saw it name last.
  lemma {:induction false} HeldIsLastNamed(c: Casing, s: State, labels: seq<Label>, repo: int, ref: string)
    requires Invariant(c, s) && repo in s.git
    ensures var s' := Execute(c, s, labels);
            repo in s'.git && Invariant(c, s') && Held(s', repo, ref) == LastNamed(c, s, labels, repo, ref)
  {
    hide Invariant; hide Step; hide Held; hide Raises;
    if labels == [] {
      HeldIsLive(c, s, repo, ref);
    } else {
      var n := |labels| - 1;
      HeldIsLastNamed(c, s, labels[..n], repo, ref);
      HeldNext(c, Execute(c, s, labels[..n]), labels[n], repo, ref);
    }
  }

  // It is also the object that pushes last moved the branch to, if they moved it to one at all.
  lemma {:induction false} HeldIsLastTarget(c: Casing, s: State, labels: seq<Label>, repo: int, ref: string)
    requires Invariant(c, s) && repo in s.git
    ensures var s' := Execute(c, s, labels);
            && repo in s'.git && Invariant(c, s')
            && Held(s', repo, ref)
               == if LastTarget(c, s, labels, repo, ref).Some? then LastTarget(c, s, labels, repo, ref)
                   else Held(s, repo, ref)
  {
    hide Invariant; hide Step; hide Held; hide Raises;
    if labels != [] {
      var n := |labels| - 1;
      HeldIsLastTarget(c, s, labels[..n], repo, ref);
      HeldNext(c, Execute(c, s, labels[..n]), labels[n], repo, ref);
    }
  }

  // A branch that no push moves to an object goes on to name, if anything, what it named before.
  lemma UnmovedNamesStored(c: Casing, s: State, labels: seq<Label>, repo: int, ref: string)
    requires Invariant(c, s) && repo in s.git && LastTarget(c, s, labels, repo, ref).None?
    ensures LastNamed(c, s, labels, repo, ref) == Held(s, repo, ref)
  {
    hide *;
    HeldIsLastNamed(c, s, labels, repo, ref);
    HeldIsLastTarget(c, s, labels, repo, ref);
  }

  // No step of the handler that answers it.
  predicate NotAnsweredBy(labels: seq<Label>, id: int) {
    forall k :: 0 <= k < |labels| ==> labels[k] != OnPublic(ResolveHead(id))
  }

  // The handler still carries the pull request it read.
  predicate Carries(s: State, id: int, stored: Stored) {
    id in s.gets && !s.gets[id].Asked? && s.gets[id].key == stored.key && s.gets[id].pull == stored.pull
  }

  lemma PublicKeepsGet(c: Casing, s: State, l: PublicLabel, id: int, stored: Stored)
    requires Carries(s, id, stored) && l != ResolveHead(id)
    ensures Carries(PublicStep(c, s, l), id, stored)
  {
    hide CreateInstallationToken; hide CancelRun; hide Authenticate; hide CheckMint; hide ReadPull; hide Shown;
  }

  lemma OthersKeepGets(c: Casing, s: State, l: Label)
    requires !l.OnPublic?
    ensures Step(c, s, l).gets == s.gets
  {
    hide ControlStep; hide RunStep; hide DeliveryStep; hide ReceiveStep;
    match l
    case OnControl(k) => ControlFrame(c, s, k);
    case OnRun(r) => RunFrame(s, r);
    case OnDelivery(d) => DeliveryFrame(s, d);
    case OnReceive(r) => ReceiveFrame(c, s, r);
  }

  lemma {:induction false} RunKeepsGet(c: Casing, s: State, labels: seq<Label>, id: int, stored: Stored)
    requires Carries(s, id, stored) && NotAnsweredBy(labels, id)
    ensures Carries(Execute(c, s, labels), id, stored)
  {
    hide PublicStep; hide Carries;
    if labels != [] {
      var n := |labels| - 1;
      var before := Execute(c, s, labels[..n]);
      RunKeepsGet(c, s, labels[..n], id, stored);
      if labels[n].OnPublic? {
        PublicKeepsGet(c, before, labels[n].public, id, stored);
      } else {
        OthersKeepGets(c, before, labels[n]);
        CarriesByGets(before, Execute(c, s, labels), id, stored);
      }
    }
  }

  lemma CarriesByGets(s: State, s': State, id: int, stored: Stored)
    requires Carries(s, id, stored) && s'.gets == s.gets
    ensures Carries(s', id, stored)
  {
  }

  // The state after the locked read of handler `id`, and what it read.
  ghost predicate JustRead(c: Casing, s: State, s1: State, id: int, stored: Stored) {
    && s.drafting.None? && id in s.gets && s.gets[id].Asked?
    && ReadPull(c, s.world, s.gets[id].token, s.gets[id].owner, s.gets[id].name, s.gets[id].number) == Some(stored)
    && s1 == Step(c, s, OnPublic(ReadStored(id)))
  }

  lemma ReadIsCarried(c: Casing, s: State, s1: State, id: int, stored: Stored)
    requires JustRead(c, s, s1, id, stored)
    ensures Carries(s1, id, stored) && s1 == s.(gets := s1.gets)
    ensures stored.key in s.world.pulls && s.world.pulls[stored.key] == stored.pull
  {
    hide RepoName;
  }

  // When no push of the repository went unobserved, a side whose branch is absent at the read
  // stores the last id it held.
  lemma ReadSide(c: Casing, s: State, key: PullKey)
    requires Reachable(c, s) && key in s.world.pulls && Clean(s.world.errors, key.repositoryID)
    ensures var repo, pull := key.repositoryID, s.world.pulls[key];
            && repo in s.git
            && (pull.baseRef !in s.git[repo] ==> Held(s, repo, pull.baseRef) == Some(pull.baseSHA))
            && (pull.headRef !in s.git[repo] ==> Held(s, repo, pull.headRef) == Some(pull.headSHA))
  {
    PullFacts(c, s, key);
    hide Reachable; hide GitRefs; hide HeldOk;
  }

  // What a reader of a branch's stored id may count on: pushes since the read moved the branch to
  // that very object last; or they moved it to none, and the read was right when it was made.
  ghost predicate StillRight(c: Casing, s: State, labels: seq<Label>, repo: int, ref: string, stored: string) {
    match LastTarget(c, s, labels, repo, ref)
    case Some(x) => x == stored
    case None => Held(s, repo, ref) == Some(stored)
  }

  // The same when no push went unobserved before the read: then the stored id of a branch absent
  // at the read was right, so only a live branch needs a look.
  ghost predicate StillRightClean(c: Casing, s: State, labels: seq<Label>, repo: int, ref: string, stored: string) {
    match LastTarget(c, s, labels, repo, ref)
    case Some(x) => x == stored
    case None => ref in GitOf(s, repo) ==> GitOf(s, repo)[ref] == stored
  }

  // A live branch's id is shown, so is current; an absent one's stored id is current exactly when
  // it is still right.
  lemma ShownSide(c: Casing, s: State, labels: seq<Label>, repo: int, ref: string, stored: string)
    requires Invariant(c, s) && repo in s.git
    ensures var s' := Execute(c, s, labels);
            && repo in s'.git && repo in s'.lastHeld
            && (Current(s', repo, ref, Shown(GitOf(s', repo), ref, stored))
                <==> ref in s'.git[repo] || StillRight(c, s, labels, repo, ref, stored))
  {
    HeldIsLastTarget(c, s, labels, repo, ref);
    var s' := Execute(c, s, labels);
    RepoHeld(c, s', repo);
    hide Invariant; hide Execute; hide LastTarget;
    assert ref in s'.git[repo] ==> GitRef(ref, s'.git[repo][ref]);
  }

  // For a read just made, the two conditions agree.
  lemma CleanSide(c: Casing, s: State, s1: State, labels: seq<Label>, repo: int, ref: string, stored: string)
    requires Invariant(c, s1) && repo in s1.git && s1.git == s.git && s1.lastHeld == s.lastHeld
    requires ref !in s.git[repo] ==> Held(s, repo, ref) == Some(stored)
    ensures StillRight(c, s1, labels, repo, ref, stored) <==> StillRightClean(c, s1, labels, repo, ref, stored)
  {
    HeldIsLive(c, s1, repo, ref);
    hide Invariant; hide LastTarget;
  }

  // What either handler lemma below is about: the read, what followed, and the two sides.
  ghost predicate SidesShown(c: Casing, s: State, s1: State, stored: Stored, labels: seq<Label>) {
    var s2 := Execute(c, s1, labels);
    var repo, pull := stored.key.repositoryID, stored.pull;
    && SideShown(c, s, s1, s2, labels, repo, pull.baseRef, pull.baseSHA)
    && SideShown(c, s, s1, s2, labels, repo, pull.headRef, pull.headSHA)
  }

  // The id shown of one side, resolved in s2, is the live branch's or the last one it held if and
  // only if the branch is live then or the stored id is still right.
  ghost predicate SideShown(c: Casing, s: State, s1: State, s2: State, labels: seq<Label>, repo: int, ref: string,
                            stored: string) {
    && repo in s2.git && repo in s2.lastHeld
    && (Current(s2, repo, ref, Shown(GitOf(s2, repo), ref, stored))
        <==> ref in s2.git[repo] || StillRight(c, s1, labels, repo, ref, stored))
    && (Clean(s.world.errors, repo) ==>
          (StillRight(c, s1, labels, repo, ref, stored) <==> StillRightClean(c, s1, labels, repo, ref, stored)))
  }

  lemma SideLater(c: Casing, s: State, s1: State, labels: seq<Label>, repo: int, ref: string, stored: string)
    requires Invariant(c, s1) && repo in s1.git && s1.git == s.git && s1.lastHeld == s.lastHeld
    requires Clean(s.world.errors, repo) && ref !in s.git[repo] ==> Held(s, repo, ref) == Some(stored)
    ensures SideShown(c, s, s1, Execute(c, s1, labels), labels, repo, ref, stored)
  {
    hide Invariant; hide Execute; hide StillRight; hide StillRightClean; hide Current; hide Held; hide Clean;
    hide Shown;
    ShownSide(c, s1, labels, repo, ref, stored);
    if Clean(s.world.errors, repo) {
      CleanSide(c, s, s1, labels, repo, ref, stored);
    }
  }

  // The two sides of a pull request just read.
  lemma SidesAtRead(c: Casing, s: State, s1: State, id: int, stored: Stored)
    requires Reachable(c, s) && JustRead(c, s, s1, id, stored)
    ensures var repo, pull := stored.key.repositoryID, stored.pull;
            && Invariant(c, s1) && repo in s1.git && s1.git == s.git && s1.lastHeld == s.lastHeld
            && (Clean(s.world.errors, repo) && pull.baseRef !in s.git[repo] ==>
                  Held(s, repo, pull.baseRef) == Some(pull.baseSHA))
            && (Clean(s.world.errors, repo) && pull.headRef !in s.git[repo] ==>
                  Held(s, repo, pull.headRef) == Some(pull.headSHA))
  {
    ReadIsCarried(c, s, s1, id, stored);
    PullFacts(c, s, stored.key);
    if Clean(s.world.errors, stored.key.repositoryID) {
      ReadSide(c, s, stored.key);
    }
    ReachableNext(c, s, OnPublic(ReadStored(id)));
    ReachableOk(c, s1);
    hide Reachable; hide Invariant; hide Step; hide Held; hide ReadPull; hide GitRefs; hide HeldOk; hide PullOk;
    hide Clean;
  }

  lemma SidesLater(c: Casing, s: State, s1: State, id: int, stored: Stored, labels: seq<Label>)
    requires Reachable(c, s) && JustRead(c, s, s1, id, stored)
    ensures SidesShown(c, s, s1, stored, labels)
  {
    SidesAtRead(c, s, s1, id, stored);
    hide Reachable; hide Invariant; hide JustRead; hide Execute; hide Held; hide Clean; hide SideShown;
    SideLater(c, s, s1, labels, stored.key.repositoryID, stored.pull.baseRef, stored.pull.baseSHA);
    SideLater(c, s, s1, labels, stored.key.repositoryID, stored.pull.headRef, stored.pull.headSHA);
  }

  // Whatever happens between the read and the moment the base branch is resolved, the base id is
  // the live branch's or the last one it held if and only if the branch is live at that moment,
  // or pushes since the read moved it last to the stored object, or moved it to none and the
  // stored id was right at the read.
  lemma BaseShown(c: Casing, s: State, s1: State, id: int, stored: Stored, labels: seq<Label>)
    requires Reachable(c, s) && JustRead(c, s, s1, id, stored)
    requires NotAnsweredBy(labels, id) && id in Execute(c, s1, labels).gets && Execute(c, s1, labels).gets[id].PullRead?
    ensures var s2 := Execute(c, s1, labels);
            var s3 := Step(c, s2, OnPublic(ResolveBase(id)));
            var repo, pull := stored.key.repositoryID, stored.pull;
            && repo in s2.git && repo in s2.lastHeld
            && id in s3.gets && s3.gets[id].BaseResolved? && s3.gets[id].key == stored.key && s3.gets[id].pull == pull
            && (Current(s2, repo, pull.baseRef, s3.gets[id].baseSHA)
                <==> pull.baseRef in s2.git[repo] || StillRight(c, s1, labels, repo, pull.baseRef, pull.baseSHA))
            && (Clean(s.world.errors, repo) ==>
                  (Current(s2, repo, pull.baseRef, s3.gets[id].baseSHA)
                   <==> (|| pull.baseRef in s2.git[repo]
                         || StillRightClean(c, s1, labels, repo, pull.baseRef, pull.baseSHA))))
  {
    ReadIsCarried(c, s, s1, id, stored);
    RunKeepsGet(c, s1, labels, id, stored);
    SidesLater(c, s, s1, id, stored, labels);
    BaseStepIs(c, Execute(c, s1, labels), id);
    CarriesMeans(Execute(c, s1, labels), id, stored);
    hide Reachable; hide JustRead; hide Execute; hide Step; hide Carries; hide StillRight; hide StillRightClean;
    hide Current; hide Shown;
    hide Clean; hide NotAnsweredBy; hide GitOf;
  }

  // The same for the head branch, and what the reader is shown at last.
  lemma HeadShown(c: Casing, s: State, s1: State, id: int, stored: Stored, labels: seq<Label>)
    requires Reachable(c, s) && JustRead(c, s, s1, id, stored)
    requires NotAnsweredBy(labels, id) && id in Execute(c, s1, labels).gets
             && Execute(c, s1, labels).gets[id].BaseResolved?
    ensures var s2 := Execute(c, s1, labels);
            var s3 := Step(c, s2, OnPublic(ResolveHead(id)));
            var repo, pull := stored.key.repositoryID, stored.pull;
            && repo in s2.git && repo in s2.lastHeld && |s3.shown| == |s2.shown| + 1 && s2.shown <= s3.shown
            && var answer := s3.shown[|s2.shown|];
            && answer == Answer(stored.key, pull.(baseSHA := s2.gets[id].baseSHA, headSHA := answer.pull.headSHA))
            && (Current(s2, repo, pull.headRef, answer.pull.headSHA)
                <==> pull.headRef in s2.git[repo] || StillRight(c, s1, labels, repo, pull.headRef, pull.headSHA))
            && (Clean(s.world.errors, repo) ==>
                  (Current(s2, repo, pull.headRef, answer.pull.headSHA)
                   <==> (|| pull.headRef in s2.git[repo]
                         || StillRightClean(c, s1, labels, repo, pull.headRef, pull.headSHA))))
  {
    ReadIsCarried(c, s, s1, id, stored);
    RunKeepsGet(c, s1, labels, id, stored);
    SidesLater(c, s, s1, id, stored, labels);
    HeadStepIs(c, Execute(c, s1, labels), id);
    CarriesMeans(Execute(c, s1, labels), id, stored);
    hide Reachable; hide JustRead; hide Execute; hide Step; hide Carries; hide StillRight; hide StillRightClean;
    hide Current; hide Shown;
    hide Clean; hide NotAnsweredBy; hide GitOf;
  }

  lemma CarriesMeans(s: State, id: int, stored: Stored)
    requires Carries(s, id, stored)
    ensures id in s.gets && !s.gets[id].Asked? && s.gets[id].key == stored.key && s.gets[id].pull == stored.pull
  {
  }

  lemma BaseStepIs(c: Casing, s: State, id: int)
    requires id in s.gets && s.gets[id].PullRead?
    ensures var g := s.gets[id];
            var s' := Step(c, s, OnPublic(ResolveBase(id)));
            && id in s'.gets
            && s'.gets[id] == BaseResolved(g.key, g.pull,
                                           Shown(GitOf(s, g.key.repositoryID), g.pull.baseRef, g.pull.baseSHA))
  {
    hide Shown;
  }

  lemma HeadStepIs(c: Casing, s: State, id: int)
    requires id in s.gets && s.gets[id].BaseResolved?
    ensures var g := s.gets[id];
            Step(c, s, OnPublic(ResolveHead(id))).shown
            == s.shown + [Answer(g.key,
                                 g.pull.(baseSHA := g.baseSHA,
                                         headSHA := Shown(GitOf(s, g.key.repositoryID), g.pull.headRef,
                                                          g.pull.headSHA)))]
  {
    hide Shown;
  }
}
