/** Git pushes: the event log is an exact history of the refs, and pull requests keep up with
    them, over every run of the twin. */
module PushTheorems {
  import opened Text
  import opened RefListing
  import opened Model
  import opened EventLog
  import opened ReceiveRegions
  import opened ReceiveProofs
  import opened Twin
  import opened Invariants
  import opened Safety
  import opened Evolution
  import opened Restart
  import KeepsReceive

  lemma GitFacts(c: Casing, s: State, repo: int)
    requires Reachable(c, s) && repo in s.world.registry.repositories
    ensures repo in s.git && repo in s.initial && repo in s.lastHeld && GitOf(s, repo) == s.git[repo]
    ensures GitRefs(s.git[repo]) && HeldOk(s.git[repo], s.lastHeld[repo])
    ensures CleanSince(s.world.errors, s.initial[repo].errors, repo) ==>
              Tracked(s.world.log.events, repo, s.initial[repo], s.git[repo], PackOf(s.packs, repo))
  {
    ReachableOk(c, s);
    KeepsReceive.RepoFacts(c, s, repo);
  }

  // Printing a repository's branches in any order and reading the listing back returns exactly those
  // branches if and only if no name holds whitespace; whatever the names, a branch is read exactly
  // when its name is a single word, under that word.
  lemma SnapshotsReadRefs(c: Casing, s: State, repo: int, order: seq<string>)
    requires Reachable(c, s) && repo in s.world.registry.repositories && repo in s.git && IsOrder(order, s.git[repo])
    ensures var refs := s.git[repo];
            var r := Parse(Listing(refs, order));
            && (r == refs <==> SpaceFree(refs))
            && (forall name :: name in refs && |Fields(name)| == 1 ==> Fields(name)[0] in r)
            && (forall w :: w in r ==> exists name :: name in refs && Fields(name) == [w] && r[w] == refs[name])
  {
    GitFacts(c, s, repo);
    assert forall name :: name in s.git[repo] ==> GitRef(name, s.git[repo][name]);
    ListingRoundTrip(s.git[repo], order);
    ListingReads(s.git[repo], order);
  }

  // Whenever no push holds a repository's lock and none of its pushes went unobserved, replaying
  // its original push events over what was read of the branches it was registered with yields
  // exactly what is read of its branches now, each event truthful about the map it moved; and so
  // exactly its branches if and only if no name holds whitespace.
  lemma LogIsHistory(c: Casing, s: State, repo: int)
    requires Reachable(c, s) && repo in s.world.registry.repositories && repo !in s.packs && Clean(s.world.errors, repo)
    ensures repo in s.git && repo in s.initial && s.initial[repo] == Base(0, 0, s.initial[repo].refs)
    ensures Replay(s.world.log.events, repo, s.initial[repo]) == Reading(s.git[repo])
    ensures Replay(s.world.log.events, repo, s.initial[repo]) == s.git[repo] <==> SpaceFree(s.git[repo])
    ensures Faithful(s.world.log.events, repo, s.initial[repo])
  {
    GitFacts(c, s, repo);
    ReachableRooted(c, s);
    ReadingIsValid(s.git[repo]);
    hide Reading; hide Replay; hide Faithful;
  }

  // A push whose second snapshot fails leaves the log behind exactly when something readable moved.
  lemma UnobservedPush(c: Casing, s: State, repo: int)
    requires Reachable(c, s) && repo in s.packs && s.packs[repo].Serving? && Clean(s.world.errors, repo)
    ensures repo in s.git && repo in s.initial
    ensures var s' := PackStep(s, repo, s.packs[repo], SnapshotAfter(repo, false));
            && s'.git == s.git && s'.initial == s.initial && repo in s'.packs && s'.packs[repo].Releasing?
            && s'.world == s.world.(errors := s.world.errors + [ObservationError(repo, s.world.now)])
            && (Replay(s'.world.log.events, repo, s.initial[repo]) == Reading(s.git[repo])
                <==> Reading(s.git[repo]) == s.packs[repo].before)
  {
    PackIsTracked(c, s, repo);
    ReachableRooted(c, s);
    hide Reachable; hide Replay; hide Faithful; 
    KeepsReceive.ErrorStepIs(s, repo);
    hide PackStep;
  }

  lemma PackIsTracked(c: Casing, s: State, repo: int)
    requires Reachable(c, s) && repo in s.packs
    ensures s.packs[repo].repository.id == repo && repo in s.git && repo in s.initial
    ensures CleanSince(s.world.errors, s.initial[repo].errors, repo) ==>
              Tracked(s.world.log.events, repo, s.initial[repo], s.git[repo], Some(s.packs[repo]))
    ensures RefreshOk(s.world.pulls, s.git[repo], repo, s.packs[repo])
  {
    ReachableOk(c, s);
    hide Reachable;
    KeepsReceive.PackRepo(c, s, repo);
    KeepsReceive.RepoFacts(c, s, repo);
    hide Invariant; hide Tracked; hide RefreshOk; hide HeldOk; hide GitRefs; hide PusherOk;
  }

  // What a push records is the complete minimal difference of its snapshots, and it queues a
  // run exactly when it moves the release ref configured at that moment to an object.
  lemma PushRecordsDifference(c: Casing, s: State, repo: int, ancestry: Ancestry)
    requires Reachable(c, s) && repo in s.packs && s.packs[repo].Observed?
    ensures var p := KeepsReceive.PushOf(s, repo, ancestry);
            var w := ReceiveStep(c, s, RecordPush(repo, ancestry)).world;
            && RecordsDifference(p, s.world.log, w.log) && QueuesRelease(p, s.world.ci, w.ci)
            && w == s.world.(log := w.log, ci := w.ci,
                             mutations := s.world.mutations + if p.before == p.after then 0 else 1)
  {
    RecordCounts(c, s, repo, ancestry);
    ObservedPushOk(c, s, repo, ancestry);
    RecordStepIs(c, s, repo, ancestry);
    hide *;
    CompleteMinimalDiff(Recorded(s.world.log, s.world.ci), KeepsReceive.PushOf(s, repo, ancestry));
    QueuesExactly(Recorded(s.world.log, s.world.ci), KeepsReceive.PushOf(s, repo, ancestry));
  }

  // A push that Git rejected, or that changed nothing, leaves no trace, and no other push does.
  lemma SilentIffUnmoved(c: Casing, s: State, repo: int, ancestry: Ancestry)
    requires Reachable(c, s) && repo in s.packs && s.packs[repo].Observed?
    ensures ReceiveStep(c, s, RecordPush(repo, ancestry)).world == s.world
            <==> s.packs[repo].before == s.packs[repo].after
  {
    var p := KeepsReceive.PushOf(s, repo, ancestry);
    ObservedPushOk(c, s, repo, ancestry);
    RecordStepIs(c, s, repo, ancestry);
    PushOfIs(s, repo, ancestry);
    hide *;
    CompleteMinimalDiff(Recorded(s.world.log, s.world.ci), p);
    if s.packs[repo].before == s.packs[repo].after {
      UnmovedWorld(c, s, repo, ancestry);
    } else if ReceiveStep(c, s, RecordPush(repo, ancestry)).world == s.world {
      NothingRecorded(p, s.world.log);
    }
  }

  lemma PushOfIs(s: State, repo: int, ancestry: Ancestry)
    requires repo in s.packs && s.packs[repo].Observed?
    ensures var p := KeepsReceive.PushOf(s, repo, ancestry);
            p.before == s.packs[repo].before && p.after == s.packs[repo].after
  {
  }

  // A difference that added nothing is a difference of equal snapshots.
  lemma NothingRecorded(p: Push, log: Log)
    requires PushOk(p) && RecordsDifference(p, log, log)
    ensures p.before == p.after
  {
    var moved := MovedRefs(p, PushedRefs(p), |PushedRefs(p)|);
    assert |moved| == |PushBodies(log.events, |log.events|)| == 0;
    forall ref ensures (ref in p.before <==> ref in p.after) && (ref in p.before ==> p.before[ref] == p.after[ref]) {
      assert ref !in moved;
      assert ref in p.before ==> ValidRef(ref, p.before[ref]);
      assert ref in p.after ==> ValidRef(ref, p.after[ref]);
    }
  }

  lemma UnmovedWorld(c: Casing, s: State, repo: int, ancestry: Ancestry)
    requires repo in s.packs && s.packs[repo].Observed? && s.packs[repo].before == s.packs[repo].after
    ensures ReceiveStep(c, s, RecordPush(repo, ancestry)).world == s.world
  {
    var p := KeepsReceive.PushOf(s, repo, ancestry);
    RecordUnmoved(Recorded(s.world.log, s.world.ci), p, PushedRefs(p), |PushedRefs(p)|);
    hide PushedRefs; hide RecordRefs;
  }

  lemma ObservedPushOk(c: Casing, s: State, repo: int, ancestry: Ancestry)
    requires Reachable(c, s) && repo in s.packs && s.packs[repo].Observed?
    ensures PushOk(KeepsReceive.PushOf(s, repo, ancestry))
  {
    ReachableOk(c, s);
    KeepsReceive.PushIsOk(c, s, repo, ancestry);
    hide Reachable; hide Invariant;
  }

  // A recorded push counts once, exactly when it moved something.
  lemma RecordCounts(c: Casing, s: State, repo: int, ancestry: Ancestry)
    requires Reachable(c, s) && repo in s.packs && s.packs[repo].Observed?
    ensures var p := KeepsReceive.PushOf(s, repo, ancestry);
            var w := ReceiveStep(c, s, RecordPush(repo, ancestry)).world;
            w == s.world.(log := w.log, ci := w.ci,
                          mutations := s.world.mutations + if p.before == p.after then 0 else 1)
  {
    ObservedPushOk(c, s, repo, ancestry);
    RecordedIs(c, s, repo, ancestry);
    hide *;
    MovesSome(KeepsReceive.PushOf(s, repo, ancestry));
  }

  lemma RecordedIs(c: Casing, s: State, repo: int, ancestry: Ancestry)
    requires repo in s.packs && s.packs[repo].Observed?
    ensures var p := KeepsReceive.PushOf(s, repo, ancestry);
            var w := ReceiveStep(c, s, RecordPush(repo, ancestry)).world;
            w == s.world.(log := w.log, ci := w.ci,
                          mutations := s.world.mutations
                                       + if exists ref :: ref in PushedRefs(p) && p.Moves(ref) then 1 else 0)
  {
    hide RecordRefs; hide PushedRefs;
    var x := s.packs[repo];
    assert KeepsReceive.PushOf(s, repo, ancestry)
           == Push(s.world.registry, s.world.now, x.repository, x.token, x.before, x.after, ancestry);
  }

  lemma MovesSome(p: Push)
    requires PushOk(p)
    ensures (exists ref :: ref in PushedRefs(p) && p.Moves(ref)) <==> p.before != p.after
  {
    if p.before != p.after {
      var ref := MovedSome(p);
      PushedRefHas(p, ref);
    }
    hide PushedRefs;
  }

  lemma MovedSome(p: Push) returns (ref: string)
    requires PushOk(p) && p.before != p.after
    ensures (ref in p.before || ref in p.after) && p.Moves(ref)
  {
    if x :| x in p.before && (x !in p.after || p.after[x] != p.before[x]) {
      ref := x;
    } else {
      ref :| ref in p.after && ref !in p.before;
    }
    assert ref in p.before ==> ValidRef(ref, p.before[ref]);
    assert ref in p.after ==> ValidRef(ref, p.after[ref]);
  }

  lemma RecordStepIs(c: Casing, s: State, repo: int, ancestry: Ancestry)
    requires repo in s.packs && s.packs[repo].Observed?
    ensures var p := KeepsReceive.PushOf(s, repo, ancestry);
            var r := RecordRefs(Recorded(s.world.log, s.world.ci), p, PushedRefs(p), |PushedRefs(p)|);
            var w := ReceiveStep(c, s, RecordPush(repo, ancestry)).world;
            w.log == r.log && w.ci == r.ci
  {
    hide RecordRefs; hide PushedRefs;
  }

  lemma PullFacts(c: Casing, s: State, key: PullKey)
    requires Reachable(c, s) && key in s.world.pulls
    ensures key.repositoryID in s.world.registry.repositories && key.repositoryID in s.git
            && key.repositoryID in s.lastHeld
    ensures GitRefs(s.git[key.repositoryID]) && HeldOk(s.git[key.repositoryID], s.lastHeld[key.repositoryID])
    ensures Clean(s.world.errors, key.repositoryID) ==>
              PullOk(s.lastHeld[key.repositoryID], s.git[key.repositoryID], PackOf(s.packs, key.repositoryID), key,
                     s.world.pulls[key])
  {
    ReachableOk(c, s);
    hide WorldOk; hide HistoryOk; hide PullOk; hide HeldOk; hide GitRefs; hide RefreshesOk; hide DraftOk;
  }

  // The last object id a branch held, read off the live branch if there is one.
  ghost predicate Current(s: State, repo: int, ref: string, sha: string)
    requires repo in s.git && repo in s.lastHeld
  {
    if ref in s.git[repo] then s.git[repo][ref] == sha else ref in s.lastHeld[repo] && s.lastHeld[repo][ref] == sha
  }

  // With no push in flight and none unobserved, both object ids a pull request stores are those
  // of the live branches, or the last ones those branches held.
  lemma PullsAreCurrent(c: Casing, s: State, key: PullKey)
    requires Reachable(c, s) && key in s.world.pulls
    requires Clean(s.world.errors, key.repositoryID) && key.repositoryID !in s.packs
    ensures key.repositoryID in s.git && key.repositoryID in s.lastHeld
    ensures Current(s, key.repositoryID, s.world.pulls[key].baseRef, s.world.pulls[key].baseSHA)
    ensures Current(s, key.repositoryID, s.world.pulls[key].headRef, s.world.pulls[key].headSHA)
  {
    PullFacts(c, s, key);
  }

  // Writing a refreshed snapshot changes object ids only: a state change made since the refresh
  // listed the pull request survives, and the write is never dropped.
  lemma RefreshKeepsState(c: Casing, s: State, repo: int)
    requires Reachable(c, s) && repo in s.packs && s.packs[repo].Writing?
    ensures var p := s.packs[repo];
            var pulls := PackStep(s, repo, p, WritePull(repo)).world.pulls;
            && p.key in s.world.pulls && p.key in pulls
            && (p.baseSHA != "" ==> pulls[p.key].baseSHA == p.baseSHA)
            && (p.headSHA != "" ==> pulls[p.key].headSHA == p.headSHA)
            && OnlyIDsMove(s.world.pulls, pulls, p.key)
  {
    PackIsTracked(c, s, repo);
    hide Reachable; hide Tracked;
    var p := s.packs[repo];
    WriteStepIs(s, repo);
    hide PackStep;
    RefreshWrites(s.world, p);
    hide OnlyIDsMove; hide RefreshPull;
  }

  // At most one pull request differs, and in nothing but its two object ids.
  ghost predicate OnlyIDsMove(a: map<PullKey, Pull>, b: map<PullKey, Pull>, moved: PullKey) {
    && b.Keys == a.Keys
    && forall key :: key in a ==>
         if key == moved then b[key] == a[key].(baseSHA := b[key].baseSHA, headSHA := b[key].headSHA)
             else b[key] == a[key]
  }

  lemma WriteStepIs(s: State, repo: int)
    requires repo in s.packs && s.packs[repo].Writing?
    ensures var p := s.packs[repo];
            PackStep(s, repo, p, WritePull(repo)).world
                == RefreshPull(s.world, p.key, p.baseRef, p.headRef, p.baseSHA, p.headSHA)
  {
    hide RefreshPull; hide WithPack; hide NextPhase;
  }

  lemma RefreshWrites(w: World, p: Pack)
    requires p.Writing? && p.key in w.pulls && p.baseRef == w.pulls[p.key].baseRef
             && p.headRef == w.pulls[p.key].headRef
    ensures var pulls := RefreshPull(w, p.key, p.baseRef, p.headRef, p.baseSHA, p.headSHA).pulls;
            && p.key in pulls
            && (p.baseSHA != "" ==> pulls[p.key].baseSHA == p.baseSHA)
            && (p.headSHA != "" ==> pulls[p.key].headSHA == p.headSHA)
            && OnlyIDsMove(w.pulls, pulls, p.key)
  {
  }

  // A refresh that has run through its list leaves every live side of every pull request of the
  // repository current, also after pushes that went unobserved.
  lemma RefreshCompletes(c: Casing, s: State, repo: int, key: PullKey)
    requires Reachable(c, s) && repo in s.packs && s.packs[repo].Refreshing? && s.packs[repo].todo == map[]
    requires key in s.world.pulls && key.repositoryID == repo
    ensures repo in s.git && LiveSides(s.git[repo], s.world.pulls[key])
  {
    PackIsTracked(c, s, repo);
    hide Reachable; hide Tracked;
  }

  // The refs a repository was registered with are never rewritten, so replays at any two
  // moments start from the same map.
  lemma StartOfHistoryIsFixed(c: Casing, s: State, labels: seq<Label>, repo: int)
    requires Reachable(c, s) && repo in s.world.registry.repositories
    ensures repo in s.initial && repo in Execute(c, s, labels).initial
    ensures Execute(c, s, labels).initial[repo] == s.initial[repo]
  {
    GitFacts(c, s, repo);
    ReachableOk(c, s);
    RunsEvolveStates(c, s, labels);
  }
}
