/** Where things come from: over any schedule from the start, every token goes back to a signed
    request of a registered App, and every accepted cancellation to an authenticated one. */
module Provenance {
  import opened Text
  import opened RefListing
  import opened Model
  import opened EventLog
  import opened PublicRegions
  import opened RunRegions
  import opened ReceiveRegions
  import opened Twin
  import opened Frames
  import opened Safety
  import opened AccessTheorems
  import opened PublicAnswers
  import opened ReceiveProofs
  import opened RunTheorems
  import opened SignalTheorems

  // The moment before step n of a run of the system.
  ghost function At(c: Casing, s: State, labels: seq<Label>, n: nat): State
    requires n <= |labels|
  {
    Execute(c, s, labels[..n])
  }

  lemma AtPrefix(c: Casing, s: State, labels: seq<Label>, m: nat, n: nat)
    requires n <= m <= |labels|
    ensures At(c, s, labels[..m], n) == At(c, s, labels, n)
  {
    assert labels[..m][..n] == labels[..n];
  }

  // Step i is a token request, signed by the App it names, which is registered.
  ghost predicate AskedAt(c: Casing, s: State, labels: seq<Label>, i: nat, id: int, m: Mint) {
    && i < |labels|
    && labels[i] == OnPublic(FindIssuer(id, true, m.appID, m.issuedAt, m.expiresAt, m.request))
    && m.appID in At(c, s, labels, i).world.registry.apps
  }

  // Step j checks its time claims, within the ten minutes before their expiry and after their issue.
  ghost predicate CheckedAt(c: Casing, s: State, labels: seq<Label>, j: nat, id: int, m: Mint) {
    && j < |labels| && labels[j] == OnPublic(CheckTimes(id))
    && var now := At(c, s, labels, j).world.now;
       m.issuedAt <= now < m.expiresAt <= now + 10 * 60 * 1_000_000_000
  }

  // A request on its way was made at some step, and checked at a later one if it is accepted.
  ghost predicate Made(c: Casing, s: State, labels: seq<Label>, id: int, m: Mint) {
    exists i: nat :: AskedAt(c, s, labels, i, id, m) && (m.accepted ==> CheckedAfter(c, s, labels, i, id, m))
  }

  ghost predicate CheckedAfter(c: Casing, s: State, labels: seq<Label>, i: nat, id: int, m: Mint) {
    exists j: nat :: i < j && CheckedAt(c, s, labels, j, id, m)
  }

  lemma AskedLater(c: Casing, s: State, labels: seq<Label>, n: nat, i: nat, id: int, m: Mint)
    requires n <= |labels| && AskedAt(c, s, labels[..n], i, id, m)
    ensures AskedAt(c, s, labels, i, id, m)
  {
    AtPrefix(c, s, labels, n, i);
    hide At;
  }

  lemma CheckedLater(c: Casing, s: State, labels: seq<Label>, n: nat, j: nat, id: int, m: Mint)
    requires n <= |labels| && CheckedAt(c, s, labels[..n], j, id, m)
    ensures CheckedAt(c, s, labels, j, id, m)
  {
    AtPrefix(c, s, labels, n, j);
    hide At;
  }

  lemma MadeLater(c: Casing, s: State, labels: seq<Label>, n: nat, id: int, m: Mint)
    requires n <= |labels| && Made(c, s, labels[..n], id, m)
    ensures Made(c, s, labels, id, m)
  {
    hide AskedAt; hide CheckedAt;
    var i: nat :| AskedAt(c, s, labels[..n], i, id, m)
      && (m.accepted ==> CheckedAfter(c, s, labels[..n], i, id, m));
    AskedLater(c, s, labels, n, i, id, m);
    if m.accepted {
      var j: nat :| i < j && CheckedAt(c, s, labels[..n], j, id, m);
      CheckedLater(c, s, labels, n, j, id, m);
    }
  }

  // What one step does to the requests on their way: a new one was signed for a registered App, a
  // newly accepted one has just been checked, every other one stands as it was.
  ghost predicate MintsMove(s: State, s': State, l: Label) {
    forall id :: id in s'.mints ==>
      var m := s'.mints[id];
      || (id in s.mints && s.mints[id] == m)
      || (&& l == OnPublic(FindIssuer(id, true, m.appID, m.issuedAt, m.expiresAt, m.request))
          && m.appID in s.world.registry.apps && !m.accepted)
      || (&& l == OnPublic(CheckTimes(id)) && id in s.mints && m == s.mints[id].(accepted := true)
          && m.issuedAt <= s.world.now < m.expiresAt <= s.world.now + 10 * 60 * 1_000_000_000)
  }

  lemma PublicMovesMints(c: Casing, s: State, l: PublicLabel)
    ensures MintsMove(s, PublicStep(c, s, l), OnPublic(l))
  {
    hide CreateInstallationToken; hide CancelWorld; hide Authenticate; hide GetStep;
    match l
    case FindIssuer(_, _, _, _, _, _) =>
    case CheckTimes(id) =>
      if id in s.mints {
        JwtMoments(s.mints[id].issuedAt, s.mints[id].expiresAt, s.world.now);
      }
    case MintToken(_, _) =>
    case BeginCancel(_, _, _, _, _) =>
    case Cancel(_, _) =>
    case _ =>
      GetFrame(c, s, l);
      assert PublicStep(c, s, l) == GetStep(c, s, l);
  }

  lemma StepMovesMints(c: Casing, s: State, l: Label)
    ensures MintsMove(s, Step(c, s, l), l)
  {
    hide ControlStep; hide PublicStep; hide RunStep; hide DeliveryStep; hide ReceiveStep;
    if !(s.drafting.Some? && NeedsLock(l)) {
      match l
      case OnControl(k) => ControlFrame(c, s, k);
      case OnPublic(p) =>
        PublicMovesMints(c, s, p);
        hide MintsMove;
      case OnRun(r) => RunFrame(s, r);
      case OnDelivery(d) => DeliveryFrame(s, d);
      case OnReceive(r) => ReceiveFrame(c, s, r);
    }
  }

  lemma {:induction false} MintsAreMade(c: Casing, now: int, labels: seq<Label>, id: int)
    requires id in Execute(c, Start(now), labels).mints
    ensures Made(c, Start(now), labels, id, Execute(c, Start(now), labels).mints[id])
  {
    hide Made; hide Step; hide MintsMove;
    if labels == [] {
    } else {
      var n := |labels| - 1;
      var before := Execute(c, Start(now), labels[..n]);
      StepMovesMints(c, before, labels[n]);
      if id in before.mints {
        MintsAreMade(c, now, labels[..n], id);
      }
      MadeNext(c, Start(now), labels, id);
    }
  }

  lemma MadeNext(c: Casing, s: State, labels: seq<Label>, id: int)
    requires labels != []
    requires var n := |labels| - 1;
             var before := Execute(c, s, labels[..n]);
             && MintsMove(before, Execute(c, s, labels), labels[n]) && id in Execute(c, s, labels).mints
             && (id in before.mints ==> Made(c, s, labels[..n], id, before.mints[id]))
    ensures Made(c, s, labels, id, Execute(c, s, labels).mints[id])
  {
    var n := |labels| - 1;
    var before, m := Execute(c, s, labels[..n]), Execute(c, s, labels).mints[id];
    assert At(c, s, labels, n) == before;
    hide Step; hide Execute; hide At;
    if id in before.mints && before.mints[id] == m {
      MadeLater(c, s, labels, n, id, m);
    } else if labels[n] == OnPublic(CheckTimes(id)) {
      hide AskedAt;
      var i: nat :| AskedAt(c, s, labels[..n], i, id, before.mints[id]);
      AskedBefore(c, s, labels, i, id, before.mints[id]);
      AskedLater(c, s, labels, n, i, id, before.mints[id]);
      AskedSame(c, s, labels, i, id, before.mints[id], m);
      assert CheckedAt(c, s, labels, n, id, m);
    } else {
      assert AskedAt(c, s, labels, n, id, m);
    }
  }

  lemma AskedBefore(c: Casing, s: State, labels: seq<Label>, i: nat, id: int, m: Mint)
    requires labels != [] && AskedAt(c, s, labels[..|labels| - 1], i, id, m)
    ensures i < |labels| - 1
  {
    hide At;
  }

  lemma AskedSame(c: Casing, s: State, labels: seq<Label>, i: nat, id: int, m: Mint, m': Mint)
    requires AskedAt(c, s, labels, i, id, m) && m' == m.(accepted := true)
    ensures AskedAt(c, s, labels, i, id, m')
  {
    hide At;
  }

  // Step k mints this token, for a request made and checked before it, as `MintAnswer` describes.
  ghost predicate MintedAt(c: Casing, s: State, labels: seq<Label>, i: nat, j: nat, k: nat, id: int, m: Mint,
                           t: Token) {
    && i < j < k < |labels| && AskedAt(c, s, labels, i, id, m) && CheckedAt(c, s, labels, j, id, m)
    && labels[k] == OnPublic(MintToken(id, t.value))
    && var w := At(c, s, labels, k).world;
       Mintable(c, w.registry, m.appID, m.request) && IsToken(c, w, m.request, t.value, t)
  }

  ghost predicate Minted(c: Casing, s: State, labels: seq<Label>, t: Token) {
    exists i: nat, j: nat, k: nat, id, m :: MintedAt(c, s, labels, i, j, k, id, m, t)
  }

  lemma MintedLater(c: Casing, s: State, labels: seq<Label>, n: nat, t: Token)
    requires n <= |labels| && Minted(c, s, labels[..n], t)
    ensures Minted(c, s, labels, t)
  {
    hide AskedAt; hide CheckedAt; hide At; hide Mintable; hide IsToken;
    var i: nat, j: nat, k: nat, id, m :| MintedAt(c, s, labels[..n], i, j, k, id, m, t);
    AskedLater(c, s, labels, n, i, id, m);
    CheckedLater(c, s, labels, n, j, id, m);
    AtPrefix(c, s, labels, n, k);
    assert MintedAt(c, s, labels, i, j, k, id, m, t);
  }

  // One step leaves the token table alone, or mints one token for an accepted request.
  ghost predicate TokensMove(c: Casing, s: State, s': State, l: Label) {
    || s'.world.tokens == s.world.tokens
    || (&& l.OnPublic? && l.public.MintToken? && l.public.id in s.mints && s.mints[l.public.id].accepted
        && var m, value := s.mints[l.public.id], l.public.value;
           && value !in s.world.tokens && Mintable(c, s.world.registry, m.appID, m.request)
           && value in s'.world.tokens && s'.world.tokens == s.world.tokens[value := s'.world.tokens[value]]
           && IsToken(c, s.world, m.request, value, s'.world.tokens[value]))
  }

  lemma MintMovesTokens(c: Casing, s: State, id: int, value: string)
    requires Reachable(c, s)
    ensures TokensMove(c, s, PublicStep(c, s, MintToken(id, value)), OnPublic(MintToken(id, value)))
  {
    if id in s.mints {
      MintAnswer(c, s, s.mints[id].appID, s.mints[id].request, value);
    }
    hide Reachable; hide Mintable; hide IsToken; hide CreateInstallationToken; hide Unprocessable; hide OneList;
    hide OwnInstallation;
  }

  lemma StepMovesTokens(c: Casing, s: State, l: Label)
    requires Reachable(c, s)
    ensures TokensMove(c, s, Step(c, s, l), l)
  {
    hide Reachable; hide ControlStep; hide PublicStep; hide RunStep; hide DeliveryStep; hide ReceiveStep;
    if !(s.drafting.Some? && NeedsLock(l)) {
      match l
      case OnControl(k) => ControlWorldFrame(c, s, k);
      case OnPublic(p) =>
        if p.MintToken? {
          MintMovesTokens(c, s, p.id, p.value);
          hide TokensMove;
        } else {
          OtherKeepTokens(c, s, p);
        }
      case OnRun(r) => RunFrame(s, r);
      case OnDelivery(d) => DeliveryFrame(s, d);
      case OnReceive(r) => ReceiveFrame(c, s, r);
    }
  }

  lemma OtherKeepTokens(c: Casing, s: State, l: PublicLabel)
    requires !l.MintToken?
    ensures PublicStep(c, s, l).world.tokens == s.world.tokens
  {
    if l.Cancel? {
      if l.id in s.cancels {
        CancelFrame(c, s.world, s.cancels[l.id], l.delivered);
      }
      hide CancelWorld;
    } else {
      PublicFrame(c, s, l);
      hide PublicStep;
    }
  }

  // Every token ever in the table was minted, under its own value, for a request that a registered
  // App signed and whose time claims were good when checked, to a caller's own active installation
  // that granted it; and it is still the token it was then.
  lemma {:induction false} TokensAreMinted(c: Casing, now: int, labels: seq<Label>, raw: string)
    requires raw in Execute(c, Start(now), labels).world.tokens
    ensures var t := Execute(c, Start(now), labels).world.tokens[raw];
            t.value == raw && Minted(c, Start(now), labels, t)
  {
    hide Minted; hide Step; hide TokensMove;
    if labels == [] {
    } else {
      var n := |labels| - 1;
      var before := Execute(c, Start(now), labels[..n]);
      assert Reachable(c, before);
      StepMovesTokens(c, before, labels[n]);
      if raw in before.world.tokens {
        TokensAreMinted(c, now, labels[..n], raw);
        MintedLater(c, Start(now), labels, n, before.world.tokens[raw]);
      }
      MintedNext(c, now, labels, raw);
    }
  }

  lemma MintedNext(c: Casing, now: int, labels: seq<Label>, raw: string)
    requires labels != []
    requires var n := |labels| - 1;
             var before, after := Execute(c, Start(now), labels[..n]), Execute(c, Start(now), labels);
             && TokensMove(c, before, after, labels[n]) && raw in after.world.tokens
             && (raw in before.world.tokens ==>
                   before.world.tokens[raw].value == raw && Minted(c, Start(now), labels, before.world.tokens[raw]))
    ensures var t := Execute(c, Start(now), labels).world.tokens[raw];
            t.value == raw && Minted(c, Start(now), labels, t)
  {
    var n := |labels| - 1;
    var before, after := Execute(c, Start(now), labels[..n]), Execute(c, Start(now), labels);
    assert At(c, Start(now), labels, n) == before;
    if after.world.tokens != before.world.tokens && raw == labels[n].public.value {
      var id := labels[n].public.id;
      MintsAreMade(c, now, labels[..n], id);
      hide Execute; hide Step; hide At; hide Mintable; hide IsToken;
      JustMinted(c, Start(now), labels, id, before, after.world.tokens[raw]);
      TokenValue(c, before.world, before.mints[id].request, raw, after.world.tokens[raw]);
    }
    hide Minted; hide Execute; hide Step; hide Mintable; hide IsToken;
  }

  lemma TokenValue(c: Casing, w: World, request: TokenRequest, value: string, t: Token)
    requires request.installationID in w.registry.installs && IsToken(c, w, request, value, t)
    ensures t.value == value
  {
    hide AskedFor;
  }

  lemma JustMinted(c: Casing, s: State, labels: seq<Label>, id: int, before: State, t: Token)
    requires labels != [] && before == At(c, s, labels, |labels| - 1) && id in before.mints && before.mints[id].accepted
    requires Made(c, s, labels[..|labels| - 1], id, before.mints[id])
    requires labels[|labels| - 1] == OnPublic(MintToken(id, t.value))
    requires var m := before.mints[id];
             Mintable(c, before.world.registry, m.appID, m.request) && IsToken(c, before.world, m.request, t.value, t)
    ensures Minted(c, s, labels, t)
  {
    var n, m := |labels| - 1, before.mints[id];
    hide At; hide Mintable; hide IsToken; hide AskedAt; hide CheckedAt;
    var i: nat :| AskedAt(c, s, labels[..n], i, id, m) && CheckedAfter(c, s, labels[..n], i, id, m);
    var j: nat :| i < j && CheckedAt(c, s, labels[..n], j, id, m);
    CheckedBefore(c, s, labels[..n], j, id, m);
    AskedLater(c, s, labels, n, i, id, m);
    CheckedLater(c, s, labels, n, j, id, m);
    assert MintedAt(c, s, labels, i, j, n, id, m, t);
  }

  lemma CheckedBefore(c: Casing, s: State, labels: seq<Label>, j: nat, id: int, m: Mint)
    requires CheckedAt(c, s, labels, j, id, m)
    ensures j < |labels|
  {
    hide At;
  }

  // Step i is a cancellation request under a token in the table that has not expired.
  ghost predicate RequestedAt(c: Casing, s: State, labels: seq<Label>, i: nat, id: int, r: Cancellation) {
    && i < |labels| && labels[i].OnPublic? && labels[i].public.BeginCancel?
    && labels[i] == OnPublic(BeginCancel(id, labels[i].public.raw, r.owner, r.name, r.runID))
    && var w, raw := At(c, s, labels, i).world, labels[i].public.raw;
       raw in w.tokens && w.now < w.tokens[raw].expiresAt && w.tokens[raw] == r.token
  }

  ghost predicate WasRequested(c: Casing, s: State, labels: seq<Label>, id: int, r: Cancellation) {
    exists i: nat :: RequestedAt(c, s, labels, i, id, r)
  }

  lemma RequestedLater(c: Casing, s: State, labels: seq<Label>, n: nat, i: nat, id: int, r: Cancellation)
    requires n <= |labels| && RequestedAt(c, s, labels[..n], i, id, r)
    ensures RequestedAt(c, s, labels, i, id, r) && i < n
  {
    AtPrefix(c, s, labels, n, i);
    hide At;
  }

  // One step leaves the requests on their way as they were, but for one taken up or answered.
  ghost predicate CancelsMove(s: State, s': State, l: Label) {
    forall id :: id in s'.cancels ==>
      var r := s'.cancels[id];
      || (id in s.cancels && s.cancels[id] == r)
      || (&& l.OnPublic? && l.public.BeginCancel?
          && l == OnPublic(BeginCancel(id, l.public.raw, r.owner, r.name, r.runID))
          && l.public.raw in s.world.tokens && s.world.now < s.world.tokens[l.public.raw].expiresAt
          && s.world.tokens[l.public.raw] == r.token)
  }

  lemma StepMovesCancels(c: Casing, s: State, l: Label)
    ensures CancelsMove(s, Step(c, s, l), l)
  {
    hide ControlStep; hide PublicStep; hide RunStep; hide DeliveryStep; hide ReceiveStep;
    if !(s.drafting.Some? && NeedsLock(l)) {
      match l
      case OnControl(k) => ControlFrame(c, s, k);
      case OnPublic(p) =>
        PublicMovesCancels(c, s, p);
        hide CancelsMove;
      case OnRun(r) => RunFrame(s, r);
      case OnDelivery(d) => DeliveryFrame(s, d);
      case OnReceive(r) => ReceiveFrame(c, s, r);
    }
  }

  lemma PublicMovesCancels(c: Casing, s: State, l: PublicLabel)
    ensures CancelsMove(s, PublicStep(c, s, l), OnPublic(l))
  {
    hide CreateInstallationToken; hide CancelWorld; hide CheckMint; hide GetStep;
    match l
    case FindIssuer(_, _, _, _, _, _) =>
    case CheckTimes(_) =>
    case MintToken(_, _) =>
    case BeginCancel(_, _, _, _, _) =>
    case Cancel(_, _) =>
    case _ =>
      GetFrame(c, s, l);
      assert PublicStep(c, s, l) == GetStep(c, s, l);
  }

  lemma {:induction false} CancelsAreRequested(c: Casing, now: int, labels: seq<Label>, id: int)
    requires id in Execute(c, Start(now), labels).cancels
    ensures WasRequested(c, Start(now), labels, id, Execute(c, Start(now), labels).cancels[id])
  {
    hide Step; hide CancelsMove; hide RequestedAt;
    if labels == [] {
    } else {
      var n := |labels| - 1;
      var before := Execute(c, Start(now), labels[..n]);
      StepMovesCancels(c, before, labels[n]);
      if id in before.cancels {
        CancelsAreRequested(c, now, labels[..n], id);
        var i: nat :| RequestedAt(c, Start(now), labels[..n], i, id, before.cancels[id]);
        RequestedLater(c, Start(now), labels, n, i, id, before.cancels[id]);
      }
      RequestedNext(c, Start(now), labels, id);
    }
  }

  lemma RequestedNext(c: Casing, s: State, labels: seq<Label>, id: int)
    requires labels != []
    requires var n := |labels| - 1;
             var before := Execute(c, s, labels[..n]);
             && CancelsMove(before, Execute(c, s, labels), labels[n]) && id in Execute(c, s, labels).cancels
             && (id in before.cancels ==> WasRequested(c, s, labels, id, before.cancels[id]))
    ensures WasRequested(c, s, labels, id, Execute(c, s, labels).cancels[id])
  {
    var n := |labels| - 1;
    var before, r := Execute(c, s, labels[..n]), Execute(c, s, labels).cancels[id];
    assert At(c, s, labels, n) == before;
    hide Step; hide Execute; hide At;
    if !(id in before.cancels && before.cancels[id] == r) {
      assert RequestedAt(c, s, labels, n, id, r);
    }
  }

  // A step marks no run as cancelled but the one whose cancellation it accepts.
  ghost predicate FlagsMove(c: Casing, s: State, s': State, l: Label) {
    forall i :: 0 <= i < |s'.world.ci.runs| && s'.world.ci.runs[i].cancellationRequested ==>
      || (i < |s.world.ci.runs| && s.world.ci.runs[i].cancellationRequested)
      || Accepts(c, s, l, s'.world.ci.runs[i].id)
  }

  lemma SameRunsMove(c: Casing, s: State, s': State, l: Label)
    requires s'.world.ci.runs == s.world.ci.runs
    ensures FlagsMove(c, s, s', l)
  {
    hide Accepts;
  }

  lemma RunMovesFlags(c: Casing, s: State, l: RunLabel)
    ensures FlagsMove(c, s, RunStep(s, l), OnRun(l))
  {
    hide FindRun; hide AppendRunEvent; hide TransitionAction; hide CheckClaim; hide Accepts;
    match l
    case ClaimRun(_, _) =>
    case Abandon(_) =>
    case StartProcess(_, _) =>
    case StopProcesses =>
    case FinishProcess(_, _, _) =>
    case Transition(_, _, _) =>
  }

  lemma CancelMovesFlags(c: Casing, s: State, id: int, delivered: bool)
    requires s.drafting.None?
    ensures FlagsMove(c, s, PublicStep(c, s, Cancel(id, delivered)), OnPublic(Cancel(id, delivered)))
  {
    hide RepoName; hide FindRunIn; hide Interrupt;
  }

  lemma PublicMovesFlags(c: Casing, s: State, l: PublicLabel)
    requires s.drafting.None? || !NeedsLock(OnPublic(l))
    ensures FlagsMove(c, s, PublicStep(c, s, l), OnPublic(l))
  {
    if l.Cancel? {
      CancelMovesFlags(c, s, l.id, l.delivered);
    } else {
      PublicFrame(c, s, l);
      if l.MintToken? && l.id in s.mints {
        MintFrame(c, s.world, s.mints[l.id].appID, s.mints[l.id].request, l.value);
      }
      hide CreateInstallationToken; hide FlagsMove;
      assert PublicStep(c, s, l).world.ci == s.world.ci;
      hide PublicStep;
      SameRunsMove(c, s, PublicStep(c, s, l), OnPublic(l));
    }
  }

  lemma RecordMovesFlags(c: Casing, s: State, repo: int, ancestry: Ancestry)
    ensures FlagsMove(c, s, ReceiveStep(c, s, RecordPush(repo, ancestry)), OnReceive(RecordPush(repo, ancestry)))
  {
    if IsObserved(s, repo) {
      var x := s.packs[repo];
      var p := Push(s.world.registry, s.world.now, x.repository, x.token, x.before, x.after, ancestry);
      RecordRefsQueue(Recorded(s.world.log, s.world.ci), p, PushedRefs(p), |PushedRefs(p)|);
    }
    hide RecordRefs; hide PushedRefs; hide Accepts;
  }

  lemma ReceiveMovesFlags(c: Casing, s: State, l: ReceiveLabel)
    ensures FlagsMove(c, s, ReceiveStep(c, s, l), OnReceive(l))
  {
    hide ReceiveStep; hide FlagsMove;
    match l
    case RecordPush(repo, ancestry) => RecordMovesFlags(c, s, repo, ancestry);
    case BeginPush(_, _, _, _) =>
      QueueFrame(c, s, l);
      SameRunsMove(c, s, ReceiveStep(c, s, l), OnReceive(l));
    case Lock(_) =>
      QueueFrame(c, s, l);
      SameRunsMove(c, s, ReceiveStep(c, s, l), OnReceive(l));
    case MoveRef(repo, ref, target) =>
      MoveRefFrame(c, s, repo, ref, target);
      SameRunsMove(c, s, ReceiveStep(c, s, l), OnReceive(l));
    case _ =>
      HandlerFrame(c, s, l);
      SameRunsMove(c, s, ReceiveStep(c, s, l), OnReceive(l));
  }

  lemma StepMovesFlags(c: Casing, s: State, l: Label)
    ensures FlagsMove(c, s, Step(c, s, l), l)
  {
    hide ControlStep; hide PublicStep; hide RunStep; hide DeliveryStep; hide ReceiveStep; hide FlagsMove;
    if s.drafting.Some? && NeedsLock(l) {
      SameRunsMove(c, s, s, l);
    } else {
      match l
      case OnControl(k) =>
        ControlWorldFrame(c, s, k);
        SameRunsMove(c, s, ControlStep(c, s, k), l);
      case OnPublic(p) => PublicMovesFlags(c, s, p);
      case OnRun(r) => RunMovesFlags(c, s, r);
      case OnDelivery(d) =>
        DeliveryFrame(s, d);
        SameRunsMove(c, s, DeliveryStep(s, d), l);
      case OnReceive(r) => ReceiveMovesFlags(c, s, r);
    }
  }

  // Step k accepts a cancellation of this run that was requested, under a good token, at step j.
  ghost predicate CancelledAt(c: Casing, s: State, labels: seq<Label>, j: nat, k: nat, id: int, runID: int) {
    && j < k < |labels| && Accepts(c, At(c, s, labels, k), labels[k], runID) && labels[k].public.id == id
    && RequestedAt(c, s, labels, j, id, At(c, s, labels, k).cancels[id])
  }

  ghost predicate EverCancelled(c: Casing, s: State, labels: seq<Label>, runID: int) {
    exists j: nat, k: nat, id :: CancelledAt(c, s, labels, j, k, id, runID)
  }

  lemma CancelledLater(c: Casing, s: State, labels: seq<Label>, n: nat, runID: int)
    requires n <= |labels| && EverCancelled(c, s, labels[..n], runID)
    ensures EverCancelled(c, s, labels, runID)
  {
    hide At; hide Accepts; hide RequestedAt;
    var j: nat, k: nat, id :| CancelledAt(c, s, labels[..n], j, k, id, runID);
    AtPrefix(c, s, labels, n, k);
    AcceptsKnows(c, At(c, s, labels, k), labels[k], runID);
    RequestedLater(c, s, labels, n, j, id, At(c, s, labels, k).cancels[id]);
    assert CancelledAt(c, s, labels, j, k, id, runID);
  }

  lemma AcceptsKnows(c: Casing, s: State, l: Label, runID: int)
    requires Accepts(c, s, l, runID)
    ensures l.OnPublic? && l.public.Cancel? && l.public.id in s.cancels
  {
  }

  lemma JustCancelled(c: Casing, now: int, labels: seq<Label>, runID: int)
    requires labels != []
    requires Accepts(c, Execute(c, Start(now), labels[..|labels| - 1]), labels[|labels| - 1], runID)
    ensures EverCancelled(c, Start(now), labels, runID)
  {
    var n := |labels| - 1;
    var before := Execute(c, Start(now), labels[..n]);
    AcceptsKnows(c, before, labels[n], runID);
    var id := labels[n].public.id;
    CancelsAreRequested(c, now, labels[..n], id);
    assert At(c, Start(now), labels, n) == before;
    hide Execute; hide Step; hide At; hide Accepts; hide RequestedAt;
    var j: nat :| RequestedAt(c, Start(now), labels[..n], j, id, before.cancels[id]);
    RequestedLater(c, Start(now), labels, n, j, id, before.cancels[id]);
    assert CancelledAt(c, Start(now), labels, j, n, id, runID);
  }

  // No run is ever marked as cancelled but by an accepted cancellation of that run, requested
  // under a token that was in the table and had not expired.
  lemma {:induction false} CancellationsAreRequested(c: Casing, now: int, labels: seq<Label>, i: nat)
    requires i < |Execute(c, Start(now), labels).world.ci.runs|
    requires Execute(c, Start(now), labels).world.ci.runs[i].cancellationRequested
    ensures EverCancelled(c, Start(now), labels, 1001 + i)
  {
    hide Step; hide FlagsMove; hide EverCancelled; hide Accepts;
    if labels == [] {
    } else {
      var n := |labels| - 1;
      var before, after := Execute(c, Start(now), labels[..n]), Execute(c, Start(now), labels);
      assert Reachable(c, after);
      RunLife(c, after, i);
      StepMovesFlags(c, before, labels[n]);
      if i < |before.world.ci.runs| && before.world.ci.runs[i].cancellationRequested {
        CancellationsAreRequested(c, now, labels[..n], i);
        CancelledLater(c, Start(now), labels, n, 1001 + i);
      } else {
        FlaggedNow(c, before, after, labels[n], i);
        JustCancelled(c, now, labels, 1001 + i);
      }
    }
  }

  lemma FlaggedNow(c: Casing, s: State, s': State, l: Label, i: nat)
    requires FlagsMove(c, s, s', l) && i < |s'.world.ci.runs| && s'.world.ci.runs[i].cancellationRequested
    requires !(i < |s.world.ci.runs| && s.world.ci.runs[i].cancellationRequested)
    ensures Accepts(c, s, l, s'.world.ci.runs[i].id)
  {
    hide Accepts;
  }

  // Step i lets a push through, for this token and repository.
  ghost predicate LetThroughAt(c: Casing, s: State, labels: seq<Label>, i: nat, token: Token, repository: Repository) {
    i < |labels| && LetsThrough(c, At(c, s, labels, i), labels[i], token, repository)
  }

  ghost predicate LetsThrough(c: Casing, s: State, l: Label, token: Token, repository: Repository) {
    && l.OnReceive? && l.receive.BeginPush?
    && AuthorizePush(c, s.world, l.receive.raw, l.receive.owner, l.receive.name) == Some((token, repository))
  }

  ghost predicate LetThrough(c: Casing, s: State, labels: seq<Label>, token: Token, repository: Repository) {
    exists i: nat :: LetThroughAt(c, s, labels, i, token, repository)
  }

  lemma LetThroughLater(c: Casing, s: State, labels: seq<Label>, n: nat, token: Token, repository: Repository)
    requires n <= |labels| && LetThrough(c, s, labels[..n], token, repository)
    ensures LetThrough(c, s, labels, token, repository)
  {
    hide At; hide LetsThrough;
    var i: nat :| LetThroughAt(c, s, labels[..n], i, token, repository);
    AtPrefix(c, s, labels, n, i);
    assert LetThroughAt(c, s, labels, i, token, repository);
  }

  // A handler that waits for a repository's lock, or holds it, carries this token and repository.
  predicate Pushes(s: State, token: Token, repository: Repository) {
    || (exists id :: id in s.waiting && s.waiting[id] == Waiter(token, repository))
    || (exists repo :: repo in s.packs && Holds(s.packs[repo], token, repository))
  }

  predicate Holds(p: Pack, token: Token, repository: Repository) {
    (p.Locked? || p.Serving? || p.Observed?) && p.token == token && p.repository == repository
  }

  // A step brings in no pusher but one it lets through.
  ghost predicate PushersMove(c: Casing, s: State, s': State, l: Label) {
    forall token, repository :: Pushes(s', token, repository) ==>
      Pushes(s, token, repository) || LetsThrough(c, s, l, token, repository)
  }

  lemma SamePushers(c: Casing, s: State, s': State, l: Label)
    requires s'.waiting == s.waiting && s'.packs == s.packs
    ensures PushersMove(c, s, s', l)
  {
    hide LetsThrough; hide Holds;
  }

  lemma PackMovesPushers(c: Casing, s: State, repo: int, p: Pack, l: Label)
    requires repo in s.packs
    requires forall token, repository :: Holds(p, token, repository) ==> Holds(s.packs[repo], token, repository)
    ensures PushersMove(c, s, s.(packs := s.packs[repo := p]), l)
  {
    hide LetsThrough; hide Holds;
  }

  lemma PackGone(c: Casing, s: State, s': State, l: Label)
    requires s'.waiting == s.waiting
    requires forall repo :: repo in s'.packs ==> repo in s.packs && s'.packs[repo] == s.packs[repo]
    ensures PushersMove(c, s, s', l)
  {
    hide LetsThrough; hide Holds;
  }

  lemma PushersByParts(c: Casing, s: State, a: State, b: State, l: Label)
    requires PushersMove(c, s, a, l) && b.waiting == a.waiting && b.packs == a.packs
    ensures PushersMove(c, s, b, l)
  {
    hide LetsThrough; hide Holds;
    forall token, repository ensures Pushes(b, token, repository) <==> Pushes(a, token, repository) {
    }
  }

  lemma LockMovesPushers(c: Casing, s: State, id: int)
    ensures PushersMove(c, s, LockStep(s, id), OnReceive(Lock(id)))
  {
    hide LetsThrough;
  }

  lemma BeginMovesPushers(c: Casing, s: State, l: ReceiveLabel)
    requires l.BeginPush?
    ensures PushersMove(c, s, ReceiveStep(c, s, l), OnReceive(l))
  {
    hide AuthorizePush; hide Holds;
  }

  lemma PackStepMovesPushers(c: Casing, s: State, repo: int, l: ReceiveLabel)
    requires repo in s.packs
    ensures PushersMove(c, s, PackStep(s, repo, s.packs[repo], l), OnReceive(l))
  {
    var p := s.packs[repo];
    var next := NextPhase(s.world, GitOf(s, repo), p, l);
    NextHolds(s.world, GitOf(s, repo), p, l);
    PackFrame(s, repo, p, l);
    hide NextPhase; hide PackWorld; hide Holds;
    if next.Some? {
      PackMovesPushers(c, s, repo, next.value, OnReceive(l));
      PushersByParts(c, s, s.(packs := s.packs[repo := next.value]), PackStep(s, repo, p, l), OnReceive(l));
    } else {
      PackGone(c, s, PackStep(s, repo, p, l), OnReceive(l));
    }
  }

  lemma NextHolds(w: World, refs: Refs, p: Pack, l: ReceiveLabel)
    ensures var next := NextPhase(w, refs, p, l);
            next.Some? ==>
              forall token, repository :: Holds(next.value, token, repository) ==> Holds(p, token, repository)
  {
    hide Reading; hide ListPulls;
  }

  lemma MoveMovesPushers(c: Casing, s: State, repo: int, ref: string, target: Option<string>)
    requires repo in s.packs && s.packs[repo].Serving?
    ensures PushersMove(c, s, MoveStep(s, repo, ref, target), OnReceive(MoveRef(repo, ref, target)))
  {
    var s', l := MoveStep(s, repo, ref, target), OnReceive(MoveRef(repo, ref, target));
    MoveFrame(s, repo, ref, target);
    var p := s.packs[repo].(touched := s.packs[repo].touched + {ref});
    PackMovesPushers(c, s, repo, p, l);
    assert s'.packs == s.packs || s'.packs == s.packs[repo := p];
    hide MoveStep;
    if s'.packs == s.packs {
      SamePushers(c, s, s', l);
    } else {
      PushersByParts(c, s, s.(packs := s.packs[repo := p]), s', l);
    }
  }

  lemma RecordMovesPushers(c: Casing, s: State, repo: int, ancestry: Ancestry)
    ensures PushersMove(c, s, ReceiveStep(c, s, RecordPush(repo, ancestry)), OnReceive(RecordPush(repo, ancestry)))
  {
    var s', l := ReceiveStep(c, s, RecordPush(repo, ancestry)), OnReceive(RecordPush(repo, ancestry));
    RecordPushFrame(c, s, repo, ancestry);
    if IsObserved(s, repo) {
      var p := Recording(s.packs[repo].repository);
      assert s'.packs == s.packs[repo := p];
      hide ReceiveStep;
      PackMovesPushers(c, s, repo, p, l);
      PushersByParts(c, s, s.(packs := s.packs[repo := p]), s', l);
    } else {
      SamePushers(c, s, s', l);
    }
  }

  lemma ReceiveMovesPushers(c: Casing, s: State, l: ReceiveLabel)
    ensures PushersMove(c, s, ReceiveStep(c, s, l), OnReceive(l))
  {
    hide PushersMove; hide LockStep; hide MoveStep; hide PackStep; hide RecordedWorld; hide AuthorizePush;
    match l
    case BeginPush(_, _, _, _) => BeginMovesPushers(c, s, l);
    case Lock(id) => LockMovesPushers(c, s, id);
    case RecordPush(repo, ancestry) => RecordMovesPushers(c, s, repo, ancestry);
    case MoveRef(repo, ref, target) =>
      if repo in s.packs && s.packs[repo].Serving? {
        MoveMovesPushers(c, s, repo, ref, target);
      } else {
        SamePushers(c, s, s, OnReceive(l));
      }
    case _ =>
      if l.repo in s.packs {
        PackStepMovesPushers(c, s, l.repo, l);
      } else {
        SamePushers(c, s, s, OnReceive(l));
      }
  }

  lemma StepMovesPushers(c: Casing, s: State, l: Label)
    ensures PushersMove(c, s, Step(c, s, l), l)
  {
    hide ControlStep; hide PublicStep; hide RunStep; hide DeliveryStep; hide ReceiveStep; hide PushersMove;
    if s.drafting.Some? && NeedsLock(l) {
      SamePushers(c, s, s, l);
    } else {
      match l
      case OnControl(k) =>
        ControlFrame(c, s, k);
        SamePushers(c, s, ControlStep(c, s, k), l);
      case OnPublic(p) =>
        PublicFrame(c, s, p);
        SamePushers(c, s, PublicStep(c, s, p), l);
      case OnRun(r) =>
        RunFrame(s, r);
        SamePushers(c, s, RunStep(s, r), l);
      case OnDelivery(d) =>
        DeliveryFrame(s, d);
        SamePushers(c, s, DeliveryStep(s, d), l);
      case OnReceive(r) => ReceiveMovesPushers(c, s, r);
    }
  }

  // No push waits for a repository, holds it or is recorded but under a token and repository that
  // an earlier request was let through with.
  lemma {:induction false} PushesAreLetThrough(c: Casing, now: int, labels: seq<Label>, token: Token,
                                               repository: Repository)
    requires Pushes(Execute(c, Start(now), labels), token, repository)
    ensures LetThrough(c, Start(now), labels, token, repository)
  {
    hide Step; hide LetThrough; hide PushersMove; hide LetsThrough;
    if labels == [] {
    } else {
      var n := |labels| - 1;
      var before := Execute(c, Start(now), labels[..n]);
      StepMovesPushers(c, before, labels[n]);
      PusherBefore(c, before, Execute(c, Start(now), labels), labels[n], token, repository);
      hide Pushes;
      if Pushes(before, token, repository) {
        PushesAreLetThrough(c, now, labels[..n], token, repository);
        LetThroughLater(c, Start(now), labels, n, token, repository);
      } else {
        LetThroughNow(c, Start(now), labels, token, repository);
      }
    }
  }

  lemma PusherBefore(c: Casing, s: State, s': State, l: Label, token: Token, repository: Repository)
    requires PushersMove(c, s, s', l) && Pushes(s', token, repository)
    ensures Pushes(s, token, repository) || LetsThrough(c, s, l, token, repository)
  {
    hide Pushes; hide LetsThrough;
  }

  lemma LetThroughNow(c: Casing, s: State, labels: seq<Label>, token: Token, repository: Repository)
    requires labels != []
    requires LetsThrough(c, Execute(c, s, labels[..|labels| - 1]), labels[|labels| - 1], token, repository)
    ensures LetThrough(c, s, labels, token, repository)
  {
    hide LetsThrough; hide Execute;
    assert LetThroughAt(c, s, labels, |labels| - 1, token, repository);
  }

  // Step i is a reader's request under a token in the table that has not expired.
  ghost predicate ReaderAt(c: Casing, s: State, labels: seq<Label>, i: nat, id: int, token: Token) {
    && i < |labels| && labels[i].OnPublic? && labels[i].public.BeginGet? && labels[i].public.id == id
    && var w, raw := At(c, s, labels, i).world, labels[i].public.raw;
       raw in w.tokens && w.now < w.tokens[raw].expiresAt && w.tokens[raw] == token
  }

  ghost predicate Reader(c: Casing, s: State, labels: seq<Label>, id: int, token: Token) {
    exists i: nat :: ReaderAt(c, s, labels, i, id, token)
  }

  ghost predicate ReadersMove(s: State, s': State, l: Label) {
    forall id :: id in s'.gets && s'.gets[id].Asked? ==>
      || (id in s.gets && s.gets[id] == s'.gets[id])
      || (&& l.OnPublic? && l.public.BeginGet? && l.public.id == id && l.public.raw in s.world.tokens
          && s.world.now < s.world.tokens[l.public.raw].expiresAt
          && s.world.tokens[l.public.raw] == s'.gets[id].token)
  }

  lemma PublicMovesReaders(c: Casing, s: State, l: PublicLabel)
    ensures ReadersMove(s, PublicStep(c, s, l), OnPublic(l))
  {
    hide CreateInstallationToken; hide CancelWorld; hide CheckMint; hide ReadPull; hide Shown; hide AnswerOf;
  }

  lemma StepMovesReaders(c: Casing, s: State, l: Label)
    ensures ReadersMove(s, Step(c, s, l), l)
  {
    hide ControlStep; hide PublicStep; hide RunStep; hide DeliveryStep; hide ReceiveStep;
    if !(s.drafting.Some? && NeedsLock(l)) {
      match l
      case OnControl(k) => ControlFrame(c, s, k);
      case OnPublic(p) =>
        PublicMovesReaders(c, s, p);
        hide ReadersMove;
      case OnRun(r) => RunFrame(s, r);
      case OnDelivery(d) => DeliveryFrame(s, d);
      case OnReceive(r) => ReceiveFrame(c, s, r);
    }
  }

  // Every reader of a pull request was authenticated by a token in the table that had not expired.
  lemma {:induction false} ReadersAreAuthenticated(c: Casing, now: int, labels: seq<Label>, id: int)
    requires id in Execute(c, Start(now), labels).gets && Execute(c, Start(now), labels).gets[id].Asked?
    ensures Reader(c, Start(now), labels, id, Execute(c, Start(now), labels).gets[id].token)
  {
    hide Step; hide ReadersMove; hide ReaderAt;
    if labels == [] {
    } else {
      var n := |labels| - 1;
      var before, token := Execute(c, Start(now), labels[..n]), Execute(c, Start(now), labels).gets[id].token;
      StepMovesReaders(c, before, labels[n]);
      if id in before.gets && before.gets[id] == Execute(c, Start(now), labels).gets[id] {
        ReadersAreAuthenticated(c, now, labels[..n], id);
        var i: nat :| ReaderAt(c, Start(now), labels[..n], i, id, token);
        ReaderLater(c, Start(now), labels, n, i, id, token);
      } else {
        ReaderNow(c, Start(now), labels, id);
      }
    }
  }

  lemma ReaderLater(c: Casing, s: State, labels: seq<Label>, n: nat, i: nat, id: int, token: Token)
    requires n <= |labels| && ReaderAt(c, s, labels[..n], i, id, token)
    ensures ReaderAt(c, s, labels, i, id, token)
  {
    AtPrefix(c, s, labels, n, i);
    hide At;
  }

  lemma ReaderNow(c: Casing, s: State, labels: seq<Label>, id: int)
    requires labels != []
    requires var before, after := Execute(c, s, labels[..|labels| - 1]), Execute(c, s, labels);
             && ReadersMove(before, after, labels[|labels| - 1]) && id in after.gets && after.gets[id].Asked?
             && !(id in before.gets && before.gets[id] == after.gets[id])
    ensures Reader(c, s, labels, id, Execute(c, s, labels).gets[id].token)
  {
    var n := |labels| - 1;
    assert At(c, s, labels, n) == Execute(c, s, labels[..n]);
    hide Execute; hide Step; hide At;
    assert ReaderAt(c, s, labels, n, id, Execute(c, s, labels).gets[id].token);
  }
}
