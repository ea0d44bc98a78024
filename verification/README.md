# A verified model of the DTU GitHub twin

`dtu` is a local stand-in for GitHub. One mutable world (apps, installations, repositories, pull
requests, tokens, workflow runs, webhook events) is shared by many concurrent HTTP handlers. Each
handler takes and drops the world's lock several times and does Git, process or network work in
between, so what the twin promises rests on what every *locked region* keeps while any other
handler's regions run in between.

## How the model is built

- `Text`, `RefListing`: the string operations borrowed from Go (trimming, fields, decimal padding,
  sorting, case mapping) and the branch listing that push observation reads.
- `Model`, `EventLog`: the world as one immutable value, and readings of its event list (replaying
  a repository's pushes, the history of one run).
- `ControlRegions`, `PublicRegions`, `RunRegions`, `ReceiveRegions`: one function per locked region,
  from the world before to the world after and the HTTP status.
- `Twin`: the running system as a state machine. A label is one atomic step of some handler, each
  handler between two regions has an explicit program counter, and `Execute` runs any sequence of
  labels. Git's refs, process starts and exits, signals and receivers' answers are label arguments,
  so they are unconstrained.
- `RegistryProofs`, `LogProofs`, `RunProofs`, `ReceiveProofs`: what one region does to one part of the world.
- `Invariants`, `KeepsControl`, `KeepsPublic`, `KeepsRun`, `KeepsDelivery`, `KeepsReceive`, `Safety`:
  one invariant, kept by every step, hence true in every reachable state.
- `Frames`: which components each handler's steps touch.
- `Evolution`: what holds between any two moments of one run of the system. `Restart`: histories read
  from any moment on.
- `RunTheorems`, `PushTheorems`, `GetTheorems`, `LogTheorems`, `AccessTheorems`, `SignalTheorems`: the
  results. `Provenance`: what every token, cancellation, push and reader goes back to.
- `Levels`, `ControlAnswers`, `PublicAnswers`, `RunAnswers`: what each handler answers and stores in a
  reachable state, in the caller's terms: which requests are accepted, what each refusal means, and
  every column of what is written, permission levels being the words on the wire.
  `Witnesses`: schedules from the initial state that reach the surprising cases.
- `Server`: the world in the source's own form, a class whose methods update maps and lists in
  place, with the source's loops and with Go's shared sets as heap objects. Each method is proved
  to do exactly what its region function says.
- `Simulation`: any schedule run on a new `Server`, label by label. What the server shows is proved
  to be the world the twin's run ends in, so every result about reachable states is about the server.

`Event.origin` (which event a duplicate was first copied from), `State.initial`, `State.lastHeld`,
`State.sent`, `State.logged`, the index in `Answered`, and `State.shown` are auxiliary: no operation
reads them.

## Four expectations the code does not meet

- *A token is dead by its JWT's expiry plus one hour.* The JWT's time window is checked in one locked
  region and the token minted in a later one, and the clock may be advanced in between
  (dtu/public.go:286-291 and 145-176). `AccessTheorems.LateMintOutlivesDeadline` is a schedule that
  breaks the deadline; `AccessTheorems.MintDeadline` says exactly when it holds.
- *Reading a pull request shows current object ids.* `PullRequests.Get` reads the stored pull request
  under the lock and resolves its branches later; a branch that is absent by then is shown at the id
  read before (dtu/public.go:211-235). `Witnesses.StaleHeadIsShown` is a schedule that shows an id the
  branch had since left; `GetTheorems.BaseShown` and `GetTheorems.HeadShown` say exactly when the id
  shown is current, by what pushes did to the branch since the read.
- *Observation sees every branch.* Git forbids only ASCII whitespace in branch names, but the listing
  is split with `strings.Fields`, which also splits at Unicode whitespace (dtu/git.go:135-138).
  `RefListing.NoBreakSpaceIsLost` is a one-branch repository whose branch is lost,
  `Witnesses.SpacedBranchIsLost` a schedule that leads there; `RefListing.ListingReads` says what is
  read, `RefListing.ListingRoundTrip` exactly when that is everything.
- *Every accepted branch push is in the log*, as the repository's design document says. When the second
  snapshot fails, refs have moved and no event exists (dtu/git.go:96-101).
  `Witnesses.AcceptedPushIsLost` is a schedule that loses one; `PushTheorems.UnobservedPush` says
  exactly when such a failure loses something. `Restart.HistoryBetween` says that the history is exact
  again from the next moment the lock is free.

## Model

| member | source | states |
|---|---|---|
| `Text.GuidInjective` | dtu/git.go:268-270 | the twelve-digit padded GUID format is injective over all counters, also those longer than twelve digits |
| `Text.GuidText` | dtu/git.go:268-270 | a GUID is the prefix and at least twelve digits that read back as the counter, padded with zeros only as far as the twelfth |
| `RefListing.BranchRefs` | dtu/git.go:134-141 | the split, trim and fields loop fills the map that reading the lines in order gives |
| `RefListing.ListingRoundTrip` | dtu/git.go:128-142 | reading a listing printed in any order returns the same branch map if and only if no branch name holds whitespace, for the empty repository too |
| `RefListing.ListingReads` | dtu/git.go:128-142 | for all names without a newline, a branch is read exactly when its name is a single word, perhaps between whitespace, and then under that word with a branch's id |
| `RefListing.NoBreakSpaceIsLost` | dtu/git.go:135-138 | a branch name Git allows that the observation does not return |
| `RegistryProofs.IndexAgrees` | dtu/control.go:146-179 | the name index maps a slash-free owner and name to an id exactly when that repository has that folded owner and name |
| `RegistryProofs.JoinInjective` | dtu/public.go:476-478 | joining slash-free components with a slash determines both |
| `RegistryProofs.MatchIsUnique` | dtu/control.go:151-156 | folded names are unique inside an installation, so a name matches at most one of its repositories |
| `RegistryProofs.CreateAppKeepsRegistry` | dtu/control.go:58-71 | registering an App keeps ids, partition, names and folds consistent and changes no earlier entry |
| `RegistryProofs.ConfigureKeepsRegistry` | dtu/control.go:290-304 | configuring a workflow keeps the registry consistent and changes no App, installation or repository |
| `RegistryProofs.CreateRepositoryKeepsRegistry` | dtu/control.go:130-184 | registering a repository keeps ids, partition, names and folds consistent and changes no earlier entry but the one growing installation |
| `ControlAnswers.InstallationAnswer` | dtu/control.go:74-122 | an installation is created exactly for named permissions at known levels, a good account, a fresh positive id and a known App; 400 and 409 each have their exact condition; the columns stored, and the announcement when it has an owner |
| `ControlAnswers.RepositoryAnswer` | dtu/control.go:125-184 | a repository is registered exactly for a good request, a fresh id, a name no registered repository has and none of the installation folds to, and a Git that prepares it; 400, 409 and 500 each have their exact condition |
| `ControlAnswers.PullAnswer` | dtu/control.go:186-232 | whatever pushes do between the two looks, a pull request is stored exactly if its base was a live branch at the first look and its head at the second, at the object ids seen then |
| `LogProofs.FindByGuid` | dtu/delivery.go:140-147 | the scan for a GUID finds exactly the event its counter numbers |
| `RunProofs.FindByRunID` | dtu/execution.go:214-221 | the scans for a run agree with direct indexing by id |
| `ReceiveProofs.CompleteMinimalDiff` | dtu/git.go:144-182 | the events of a push are the complete minimal difference of its snapshots: one per changed ref in strictly increasing ref order, none for another, created, deleted and forced as the two ends and the ancestry say |
| `ReceiveProofs.RecordingReplays` | dtu/git.go:144-182 | replaying a push's events turns the first snapshot into the second, each event truthful about the map it moves, and leaves every other repository's history alone |
| `ReceiveProofs.QueuesExactly` | dtu/git.go:215-233 | a push queues a run exactly when it moves the release ref configured at that moment to an object, and then exactly one: next id, attempt 1, this repository, the workflow's id, name and path, event "push", that ref and object, queued, no conclusion, no cancellation, no logs; claims stand |
| `Safety.StepKeeps` | dtu/types.go:45-67 | every atomic step of every handler keeps the invariant of the whole world |
| `Safety.ReachableOk` | dtu/server.go:60-74 | the invariant holds after any schedule from the initial world |
| `Evolution.RunsEvolveStates` | dtu/types.go:45-67 | between any two moments of a run of the system, lists only grow, records only move forward, and the mutation counter stamps the snapshot |
| `RunTheorems.ClaimsMatchExecutors` | dtu/execution.go:27-61 | claims and in-flight executors correspond one to one; a preparing run is queued without a command, a running one is in progress with its executor's command, and the captured index still names the claimed run |
| `RunTheorems.StartIsNeverTooLate` | dtu/execution.go:123-131 | the "no longer queued" refusal is unreachable |
| `RunTheorems.ReleaseIsOwn` | dtu/execution.go:53-61 | the deferred release removes its own claim and no other executor's |
| `RunTheorems.RunLife` | dtu/delivery.go:103-137 | the original events of run 1001 + i spell requested, optionally in_progress, optionally completed, all about this very run and its repository; the last one is the stored status and conclusion; a conclusion is set exactly when the run is completed |
| `RunTheorems.RunsOnlyAdvance` | dtu/execution.go:123-177 | at any later moment a run has the same identity, has not moved backwards, has not lost an accepted cancellation, and is unchanged if it was completed |
| `RunTheorems.CompletedHistoryIsFinal` | dtu/delivery.go:122-130 | no later step adds an original event to a completed run |
| `RunTheorems.RunComesFromPush` | dtu/git.go:215-231 | each run has exactly one requested event, right after an original push with the run's branch and commit, both filed under the run's own repository |
| `RunTheorems.CancelledBeforeStart` | dtu/execution.go:132-143 | a run cancelled while its executor prepares is completed as cancelled by the start region, right after its requested event, and its claim is gone |
| `RunTheorems.CancelledForever` | dtu/execution.go:132-143 | and stays so under every later schedule: it is never in progress |
| `RunTheorems.ExitDecides` | dtu/execution.go:160-177 | success exactly for a zero exit, cancelled exactly for a non-zero exit after a delivered interrupt, and then only if a cancellation had been accepted |
| `RunTheorems.CancellationAccepted` | dtu/public.go:88-125 | a cancellation is accepted exactly for a covered token whose actions level is write or admin, the run's own repository and a run not completed (a conflict otherwise, and not found in every other case); it marks exactly that run, counts once, and a refusal leaves no trace |
| `SignalTheorems.CancelAnswer` | dtu/public.go:109-123 | an accepted cancellation leaves the run's claim marked if and only if it was, or the signal was delivered and the claim holds a process; no other claim and no process changes |
| `SignalTheorems.StepMarksRightly` | dtu/public.go:115-121 | under every step of every handler, a standing claim is marked if and only if it was or the step is an accepted, delivered cancellation of its run in progress |
| `SignalTheorems.CancelledIffInterrupted` | dtu/execution.go:121-177 | from a run's start to its process's exit, under any schedule, the run concludes as cancelled if and only if the exit is non-zero and some cancellation of it in between was accepted and its signal delivered; as a success if and only if the exit is zero; else as a failure |
| `RunAnswers.TransitionAnswer` | dtu/delivery.go:98-137 | a scripted transition is accepted exactly for an unclaimed run going from queued to in progress without a conclusion, or from any state but completed to completed with one (a conflict otherwise); it sets that run's status and conclusion, tells so in one event, and changes no other run and no claim |
| `RunAnswers.UnknownRun` | dtu/delivery.go:104-114 | a transition or an execution answers "not found" exactly for an id no run has |
| `RunAnswers.ClaimAnswer` | dtu/execution.go:27-52 | an execution claims a run exactly when it is queued, unclaimed and its repository has a workflow; it captures the run's place, repository and workflow and adds one claim without a process |
| `RunAnswers.StartAnswer` | dtu/execution.go:121-157 | the start ends a cancelled run, leaves the run queued and unclaimed when the process does not start, and otherwise puts it in progress with a claim that holds the process; one event tells the change, and no other run and no other claim differs |
| `RunAnswers.FinishAnswer` | dtu/execution.go:158-177 | the exit completes the run with the process's logs and its conclusion, gives up its claim and tells so in one event; no other run and no other claim differs |
| `RunAnswers.ReleaseIsAnnounced` | dtu/git.go:174-177 | a push of the release ref announces the run with the next id, attempt 1, the configured workflow's id, name and path, the event "push", the ref and the object after the push, queued and without a conclusion |
| `PushTheorems.LogIsHistory` | dtu/git.go:60-105 | for every name Git admits: whenever no push holds a repository's lock and none went unobserved, replaying its original pushes yields exactly what is read of its branches, every event truthful, and so exactly its branches if and only if no name holds whitespace |
| `PushTheorems.SnapshotsReadRefs` | dtu/git.go:128-142 | in every reachable state, printing a repository's branches in any order and reading the listing back returns exactly those branches if and only if no name holds whitespace; a branch is read exactly when its name is a single word, and under that word |
| `Restart.HistoryBetween` | dtu/git.go:60-105 | between any two moments with the lock free and nothing unobserved in between, replaying the pushes recorded in between over what was read at the earlier one yields exactly what is read at the later one, whatever was lost before |
| `PushTheorems.UnobservedPush` | dtu/git.go:96-101 | a failed second snapshot leaves one observation error, dated now, and loses history exactly when what is read of the branches has changed |
| `Witnesses.AcceptedPushIsLost` | dtu/git.go:96-101 | a schedule from the initial state whose push Git accepts and the log never hears of, because the second snapshot fails |
| `Witnesses.SpacedBranchIsLost` | dtu/git.go:134-141 | a schedule from the initial state whose push creates a branch that no event and no error ever tells of, although both snapshots succeed |
| `PushTheorems.PushRecordsDifference` | dtu/git.go:144-182 | in any reachable state, recording a push adds exactly the difference of its snapshots and the release run it triggers, column by column, and counts once exactly when something moved |
| `PushTheorems.SilentIffUnmoved` | dtu/git.go:164-181 | recording leaves the world unchanged exactly when the push moved no ref |
| `PushTheorems.PullsAreCurrent` | dtu/git.go:364-395 | with no push in flight and none unobserved, each side of every pull request stores its live branch's object id, or the last one the branch held |
| `PushTheorems.RefreshKeepsState` | dtu/git.go:382-393 | a refresh write touches the object ids of one pull request only, so a state change since the listing survives, and it is never dropped |
| `PushTheorems.RefreshCompletes` | dtu/git.go:364-395 | a refresh that has run through its list leaves every live side of every pull request current, also after pushes that went unobserved |
| `GetTheorems.BaseShown` | dtu/public.go:211-231 | for every schedule between the locked read and the resolution of the base, the base id shown is the live branch's or the last it held if and only if the branch is live then, or pushes since the read last moved it to the very object stored, or moved it to none and the stored id was right at the read; with no push unobserved, "right at the read" only needs a branch live at the read to name the stored id |
| `GetTheorems.HeadShown` | dtu/public.go:211-235 | the same for the head, resolved later still, and what the reader is shown at last |
| `GetTheorems.HeldIsLastTarget` | dtu/git.go:364-395 | over any schedule, the last id a branch held is the object pushes last moved it to, or what it was when they moved it to none |
| `GetTheorems.UnmovedNamesStored` | dtu/public.go:228-235 | over any schedule in which no push moves a branch to an object, the last id it names stays what it was |
| `GetTheorems.ReadSide` | dtu/git.go:364-395 | with no push unobserved, also in the middle of one, a side whose branch is absent stores the last id the branch held |
| `GetTheorems.HeldIsLastNamed` | dtu/git.go:364-395 | the last id the model remembers of a branch is the last one an onlooker saw it name, over any schedule |
| `Witnesses.StaleHeadIsShown` | dtu/public.go:211-235 | a schedule from the initial state in which a reader is shown an id the branch had left before it was deleted |
| `PushTheorems.StartOfHistoryIsFixed` | dtu/git.go:66-73 | the refs a replay starts from never change, so replays at two moments agree |
| `LogTheorems.GuidsAreDense` | dtu/git.go:263-278 | the event at index k has GUID number k + 1, and scanning for it finds k |
| `LogTheorems.CreationTimesAscend` | dtu/control.go:269-273 | events, copies included, have non-decreasing creation times, none in the future |
| `LogTheorems.EventsAreImmutable` | dtu/delivery.go:88-94 | the event list is append-only and its entries never change |
| `LogTheorems.DuplicatesAgree` | dtu/delivery.go:88-93 | through any chain of duplications an event agrees with its root original in all but GUID and time |
| `LogTheorems.DuplicationIsFresh` | dtu/delivery.go:76-96 | duplicating any known GUID appends that event's content under a GUID no earlier event has, at the current time, and counts once |
| `LogTheorems.UnknownDuplicate` | dtu/delivery.go:83-87 | duplication answers "not found" exactly for a GUID no event has, and then leaves no trace |
| `LogTheorems.RedeliveryIsIdentical` | dtu/delivery.go:18-48 | any two deliveries of one GUID, at any two moments, are the same request (headers, body, secret, destination), but for a signature spoilt on purpose |
| `LogTheorems.SentOnlyGrows` | dtu/delivery.go:61-64 | nothing sent or recorded as attempted is ever taken back |
| `LogTheorems.AttemptsNameEvents` | dtu/delivery.go:49-64 | every recorded attempt tells the truth about a message that was sent (GUID, destination, signature flag), and so names an event in the list |
| `LogTheorems.AttemptsMatchPosts` | dtu/delivery.go:48-64 | no message is recorded twice or lost: attempts match messages one to one, and the messages without an attempt are, one to one, those of handlers still to record theirs |
| `RunAnswers.DeliveryTells` | dtu/delivery.go:18-64 | whatever other handlers do meanwhile, a delivery sends the event under its own headers to its App's URL and secret as they were at the fetch, spoilt exactly when asked, and records that message, dated at the fetch, with the receiver's answer |
| `RunAnswers.FetchAnswer` | dtu/delivery.go:23-33 | a delivery begins exactly for a known event whose App has a webhook URL and secret |
| `LogTheorems.SenderIsAddressee` | dtu/git.go:172-173 | the sender App of a push body, found through the token, is the App the event goes to, found through the repository |
| `LogTheorems.EventsTellRegistry` | dtu/git.go:184-278 | every event in the list, copies included, tells the registry's truth: kind and action are those of its body; repository id, full name, installation, account and sender are registered as it says; and it is addressed to the App behind them |
| `LogTheorems.CounterIsStamp` | dtu/control.go:307-329 | the mutation counter never decreases, and equal counters mean equal snapshots except for unsupported requests and observation errors |
| `AccessTheorems.TokensStayScoped` | dtu/public.go:156-176 | every token's repositories belong to its installation and each of its permissions is granted there at its level or above, in the order read, write, admin |
| `AccessTheorems.TokensAreFixed` | dtu/public.go:170-176 | no later step changes an issued token, and it is accepted at exactly the later moments before its expiry |
| `AccessTheorems.ExpiredStaysExpired` | dtu/public.go:296-302 | a token once rejected as expired is rejected ever after |
| `AccessTheorems.ClockIsAdvanced` | dtu/control.go:259-275 | over any run the clock moves by exactly the sum of the accepted advances |
| `AccessTheorems.JwtInterval` | dtu/public.go:286-291 | the moments of a run at which one JWT is accepted form one interval of less than ten minutes |
| `AccessTheorems.JwtMoments` | dtu/public.go:286-291 | a JWT is accepted exactly from its issue, or ten minutes before its expiry if that is later, up to but not at its expiry |
| `PublicAnswers.MintAnswer` | dtu/public.go:133-177 | a token is minted (201) exactly when ids and names are not both given, the installation exists, is the calling App's and is active, every id is granted, every name is a granted repository's, and every permission is granted at a level no lower; 422, 404 and 403 each have their exact condition and leave no trace; the token stored has an hour to live, exactly the repositories asked for, and the permissions requested if any were |
| `Provenance.TokensAreMinted` | dtu/public.go:133-177 | over any schedule from the start, every token in the table goes back to a request signed by a registered App, whose time claims were good when checked, and which was mintable when minted |
| `Provenance.CancellationsAreRequested` | dtu/public.go:83-125 | over any schedule from the start, every run marked as cancelled goes back to a request under a token in the table that had not expired, accepted later for that very run |
| `Provenance.PushesAreLetThrough` | dtu/git.go:31-62 | over any schedule from the start, no push waits for a repository, holds it or is recorded but under a token and repository that an earlier request was let through with |
| `Provenance.ReadersAreAuthenticated` | dtu/public.go:205-223 | over any schedule from the start, every reader of a pull request was authenticated by a token in the table that had not expired |
| `AccessTheorems.MintDeadline` | dtu/public.go:145-176 | a token is dead by its JWT's expiry plus one hour if and only if the clock advanced no further between the check and the mint than the JWT had left to live |
| `AccessTheorems.LateMintOutlivesDeadline` | dtu/public.go:133-176 | a schedule from the initial world that mints a token outliving that deadline |
| `AccessTheorems.SelectionIsUnique` | dtu/public.go:389-402 | in any reachable state a name selects at most one repository of an installation |
| `AccessTheorems.IndexIsExact` | dtu/control.go:146-179 | in any reachable state the name index agrees with the repository table, for every slash-free owner and name |
| `AccessTheorems.RepositoriesArePartitioned` | dtu/control.go:169-179 | each repository belongs to exactly the installation it records, which exists, and has a receive lock |
| `AccessTheorems.PushIsAuthorized` | dtu/git.go:31-53 | a push is let through exactly for a stored, unexpired token that covers the repository named and whose contents level is write or admin |
| `AccessTheorems.PullIsReadable` | dtu/public.go:211-226 | a pull request is readable exactly when it exists in the repository named, the token covers that repository, and its level for pull requests or contents is read, write or admin; what is read is what is stored |
| `Simulation.Perform` | dtu/control.go:20-35 | one atomic step performed on the server's own fields leaves it showing exactly the twin's next world |
| `Simulation.RunSchedule` | dtu/types.go:45-67 | any schedule run on a new server leaves it showing exactly the world the twin's run ends in |
| `Server.Server.constructor` | dtu/server.go:60-74 | a new server is the initial world |
| `Server.RepositorySet.Copy` | dtu/public.go:468-474 | a copied set is a new object with the same members |
| `Server.CopyMap` | dtu/public.go:460-466 | a copied map equals the original |
| `Server.CheckPermissions` | dtu/control.go:79-84 | in any range order, accepts exactly non-empty names with known levels |
| `Server.NarrowPermissions` | dtu/public.go:406-425 | in any range order, returns the requested permissions exactly when each is granted at its rank or above |
| `Server.CollectRefs` | dtu/git.go:145-156 | the refs of both snapshots, each once, in increasing order |
| `Text.SortStrings` | dtu/git.go:156 | a sorted sequence of the same distinct strings |
| `Text.BeforeIsLexicographic` | dtu/git.go:156 | the order of refs is the lexicographic one, by position |
| `Server.Server.CheckInstallation` | dtu/control.go:79-97 | accepts exactly valid permissions and owners, and settles the owner type |
| `Server.Server.CreateInstallation` | dtu/control.go:79-122 | refuses bad permissions, owners, ids and unknown Apps in that order without a trace, else files the installation with a set of its own, announces it when it has an owner, and counts it |
| `Server.Server.NameIsTaken` | dtu/control.go:151-156 | in any range order, finds a folded-name clash exactly when there is one |
| `Server.Server.CheckRepository` | dtu/control.go:130-156 | answers 0 exactly for a repository that may be registered, and 400 exactly for bad input or an unknown installation |
| `Server.Server.RegisterRepository` | dtu/control.go:169-179 | the installation's shared set grows in place and no other installation or token changes |
| `Server.Server.CreateRepository` | dtu/control.go:130-184 | every refusal (400, 409, 500) leaves the world as it was; otherwise table, lock, name index and installation change together, are announced when the installation has an owner, and are counted once |
| `Server.Server.FindPendingEvent` | dtu/delivery.go:140-147 | the first event with the GUID, if any |
| `Server.Server.WorkflowRunByID` | dtu/execution.go:214-221 | the first run with the id, if any |
| `Server.Server.RunInRepository` | dtu/public.go:98-104 | the first run with the id in the repository, if any |
| `Server.Server.ClaimRun` | dtu/execution.go:27-52 | claims a queued, unclaimed, configured run and captures its index |
| `Server.Server.CancelWorkflowRun` | dtu/public.go:88-125 | marks the first run with that id in the named repository, and its claim too when a running command took the interrupt; every refusal leaves the world as it was |
| `Server.Server.FindByName` | dtu/public.go:389-398 | in any range order, finds a repository of that folded name exactly when there is one |
| `Server.Server.SelectByID` | dtu/public.go:382-388 | succeeds exactly when every id is granted, collecting those ids |
| `Server.Server.SelectByName` | dtu/public.go:389-402 | succeeds exactly when every name is granted, adding precisely the repositories matched, whatever the range order |
| `Server.Server.SelectGranted` | dtu/public.go:378-404 | for every range order, succeeds exactly when each requested id and folded name is granted, and returns precisely those repositories in a set of their own |
| `Server.Server.CreateInstallationToken` | dtu/public.go:141-177 | every refusal (422, 404, 403) leaves the world as it was; otherwise stores a token with the narrowed scope and a one-hour life, in copies that share nothing with the installation |
| `Server.Server.IssueToken` | dtu/public.go:169-177 | stores copies of the selected scope in a set nothing else holds |
| `Server.Server.RecordRefChanges` | dtu/git.go:144-182 | through the key sets, the sort and both loops, records exactly the events and runs of the region function that the push results are about, and counts them once |
| `Server.Server.ForcedRefs` | dtu/git.go:157-160 | marks exactly the refs with two ends of which the first is no ancestor of the second |
| `Server.Server.ListSnapshots` | dtu/git.go:370-377 | in any range order, lists exactly the repository's pull requests and their refs |

## Left out

- HTTP serving, JSON, routing, headers and error texts: requests arrive decoded and answers are status codes; the messages are not modelled, nor the status codes of the Git endpoint.
- Git, `act`, Docker, checkouts and file removal: only their outcomes appear, as arguments of the steps. Git moves one branch at a time.
- Cryptography: a signature is a Boolean, HMAC values are not modelled, and a fresh random token differs from every issued one (in `Twin` only; `Server` does not need it).
- Event payloads are structured values, not JSON text, in which invalid UTF-8 in a branch name is replaced, so a replay read from real bodies differs for such names; fixed fields and logins derived from the App id are omitted.
- Counters and the clock are unbounded: 64-bit wrap-around and the saturation of Go's time arithmetic are not modelled.
- `PushTheorems.PullsAreCurrent`: assumes, as all of `Twin` does, that a push names each branch at most once, as `git push` makes sure of; a hand-made request that moves a branch to an object and then deletes it may pass Git's receive-pack and would leave an earlier id stored. It also takes `git rev-parse refs/heads/x^{commit}` to fail for an absent branch x, as do the results on reading pull requests; Git would go on to look for refs such as refs/heads/refs/heads/x or refs/tags/refs/heads/x, which a pusher may create, and for a name that ends like the output of `git describe`.
- Case mapping is a parameter (`Text.Casing`) acting on single characters, since neither of Go's two mappings determines the other.
- A pull request's refs are plain branch names: revision expressions that `git rev-parse` would also accept are not modelled, nor is a file system that folds case in branch names.
- Reads that only choose an answer (`git-upload-pack`, the response lists of a minted token) are left out.
- Listener start and stop, temporary directories and the command-line program; shutdown appears only as the step `StopProcesses`, which interrupts processes and records nothing.
- dtu/client.go and the payload builders of dtu/installation_events.go beyond the fields an event reader needs.
