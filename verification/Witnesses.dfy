/** Schedules from the initial state that reach what the code's users might not expect. */
module Witnesses {
  import opened Text
  import opened RefListing
  import opened Model
  import opened EventLog
  import opened ControlRegions
  import opened PublicRegions
  import opened ReceiveRegions
  import opened Twin
  import opened Safety
  import opened PushTheorems

  function Granted(): map<string, string> {
    map["contents" := "write"]
  }

  function TheRepository(): Repository {
    Repository(1, "o", "r", 1)
  }

  function TheToken(now: int): Token {
    Token("ghs_t", 1, {1}, Granted(), now + TOKEN_LIFETIME)
  }

  function Request(): TokenRequest {
    TokenRequest(1, [], [], None)
  }

  // One App, one installation, one repository with the given branches.
  function Furnish(found: Refs): seq<Label> {
    [OnControl(AddApp(App(1, "", ""), true)),
     OnControl(AddInstallation(InstallationInput(1, 1, true, "", "", Granted()))),
     OnControl(AddRepository(RepositoryInput(1, "o", "r", 1), true, true, found))]
  }

  // One token.
  function Mints(now: int): seq<Label> {
    [OnPublic(FindIssuer(1, true, 1, now, now + 60 * SECOND, Request())), OnPublic(CheckTimes(1)),
     OnPublic(MintToken(1, "ghs_t"))]
  }

  function Setup(now: int, found: Refs): seq<Label> {
    Furnish(found) + Mints(now)
  }

  // Accounts and repository, before any token.
  ghost predicate Furnished(c: Casing, now: int, found: Refs, s: State) {
    && s.drafting.None? && s.world.now == now && s.world.errors == [] && s.world.log.events == []
    && 1 in s.world.registry.apps
    && s.world.registry.installs == map[1 := Installation(1, 1, true, "", "", Granted(), {1})]
    && s.world.registry.repositories == map[1 := TheRepository()]
    && s.world.registry.repoNames == map[RepoName(c, "o", "r") := 1]
    && s.world.tokens == map[] && s.world.pulls == map[] && s.mints == map[] && s.packs == map[] && s.waiting == map[]
    && s.gets == map[] && s.shown == []
    && s.git == map[1 := found] && s.lastHeld == map[1 := found] && s.initial == map[1 := Base(0, 0, Reading(found))]
  }

  // The stage every schedule below plays on; the rest of the state does not matter to it.
  ghost predicate Stage(c: Casing, now: int, s: State) {
    && s.drafting.None? && s.world.now == now && s.world.errors == []
    && s.world.registry.repositories == map[1 := TheRepository()]
    && s.world.registry.repoNames == map[RepoName(c, "o", "r") := 1]
    && s.world.tokens == map["ghs_t" := TheToken(now)]
    && s.git.Keys == {1} && s.lastHeld.Keys == {1}
  }

  // Three steps in a row.
  lemma ThreeSteps(c: Casing, s: State, labels: seq<Label>)
    requires |labels| == 3
    ensures Execute(c, s, labels) == Step(c, Step(c, Step(c, s, labels[0]), labels[1]), labels[2])
  {
    assert labels[..0] == [] && labels[..3] == labels;
    NoSteps(c, s);
    ExecuteNext(c, s, labels, 0);
    ExecuteNext(c, s, labels, 1);
    ExecuteNext(c, s, labels, 2);
    hide Step; hide Execute;
  }

  lemma NoSteps(c: Casing, s: State)
    ensures Execute(c, s, []) == s
  {
  }

  lemma AppAdded(c: Casing, now: int, found: Refs)
    ensures var s := Step(c, Start(now), Furnish(found)[0]);
            s == Start(now).(world := s.world)
            && s.world == EmptyWorld(now).(registry := s.world.registry, mutations := 1)
            && s.world.registry == EmptyWorld(now).registry.(apps := map[1 := App(1, "", "")])
  {
  }

  ghost predicate WithAccounts(now: int, s: State) {
    && s == Start(now).(world := s.world)
    && s.world == EmptyWorld(now).(registry := s.world.registry, mutations := 2)
    && s.world.registry == EmptyWorld(now).registry.(apps := map[1 := App(1, "", "")],
                                                     installs := map[1 := Installation(1, 1, true, "", "", Granted(),
                                                         {})])
  }

  lemma AccountsAdded(c: Casing, now: int, found: Refs)
    ensures WithAccounts(now, Step(c, Step(c, Start(now), Furnish(found)[0]), Furnish(found)[1]))
  {
    AppAdded(c, now, found);
    assert PermissionsValid(Granted());
  }

  lemma RepositoryFurnished(c: Casing, now: int, found: Refs, s: State)
    requires WithAccounts(now, s) && GitRefs(found)
    ensures Furnished(c, now, found, Step(c, s, Furnish(found)[2]))
  {
    hide RepoName; hide GitRefs;
    var input := RepositoryInput(1, "o", "r", 1);
    assert ValidPathComponent("o") && ValidPathComponent("r");
    var done := CreateRepository(c, s.world, input, true, true);
    assert !NameTaken(c, s.world.registry, s.world.registry.installs[1], "r");
    assert done.status == 201;
    assert {} + {1} == {1};
    assert done.world.registry.installs == map[1 := Installation(1, 1, true, "", "", Granted(), {1})];
  }

  // Everything set up, nothing under way.
  ghost predicate Ready(c: Casing, now: int, found: Refs, s: State) {
    && Stage(c, now, s) && s.world.pulls == map[] && s.world.log.events == []
    && s.packs == map[] && s.waiting == map[] && s.gets == map[] && s.shown == []
    && s.git == map[1 := found] && s.lastHeld == map[1 := found] && s.initial == map[1 := Base(0, 0, Reading(found))]
  }

  // The token request's JWT has been accepted.
  lemma RequestAccepted(c: Casing, now: int, found: Refs, s: State)
    requires Furnished(c, now, found, s)
    ensures Step(c, Step(c, s, Mints(now)[0]), Mints(now)[1])
            == s.(mints := map[1 := Mint(1, now, now + 60 * SECOND, Request(), true)])
  {
    hide RepoName;
    assert Step(c, s, Mints(now)[0]) == s.(mints := map[1 := Mint(1, now, now + 60 * SECOND, Request(), false)]);
  }

  lemma MintStepIs(c: Casing, now: int, s: State)
    requires s.drafting.None? && s.world.now == now
             && s.mints == map[1 := Mint(1, now, now + 60 * SECOND, Request(), true)]
    requires s.world.tokens == map[]
             && s.world.registry.installs == map[1 := Installation(1, 1, true, "", "", Granted(), {1})]
    ensures Step(c, s, Mints(now)[2])
            == s.(world := s.world.(tokens := map["ghs_t" := TheToken(now)], mutations := s.world.mutations + 1),
                  mints := map[])
  {
    assert CreateInstallationToken(c, s.world, 1, Request(), "ghs_t").world
           == s.world.(tokens := map["ghs_t" := TheToken(now)], mutations := s.world.mutations + 1);
    assert s.mints - {1} == map[];
    hide CreateInstallationToken; hide TheToken; hide Granted;
  }

  lemma TokenMinted(c: Casing, now: int, found: Refs, s: State)
    requires Furnished(c, now, found, s)
    ensures Ready(c, now, found, Step(c, Step(c, Step(c, s, Mints(now)[0]), Mints(now)[1]), Mints(now)[2]))
  {
    RequestAccepted(c, now, found, s);
    hide RepoName; hide Reading; hide Step; hide TheToken; hide TheRepository; hide Granted; hide Request;
    MintStepIs(c, now, s.(mints := map[1 := Mint(1, now, now + 60 * SECOND, Request(), true)]));
  }

  lemma SetupIsReady(c: Casing, now: int, found: Refs)
    requires GitRefs(found)
    ensures Ready(c, now, found, Execute(c, Start(now), Setup(now, found)))
  {
    assert |Furnish(found)| == 3 && |Mints(now)| == 3;
    ThreeSteps(c, Start(now), Furnish(found));
    var s := Execute(c, Start(now), Furnish(found));
    ThreeSteps(c, s, Mints(now));
    AccountsAdded(c, now, found);
    RepositoryFurnished(c, now, found, Step(c, Step(c, Start(now), Furnish(found)[0]), Furnish(found)[1]));
    hide Step; hide Execute; hide Furnished; hide Ready; hide WithAccounts; hide Furnish; hide Mints; hide GitRefs;
    TokenMinted(c, now, found, s);
    ExecuteAppend(c, Start(now), Furnish(found), Mints(now));
  }

  // A push under way on the one repository.
  ghost predicate Pushing(c: Casing, now: int, s: State, refs: Refs, held: Refs, pack: Pack) {
    && Stage(c, now, s) && s.waiting == map[] && s.packs == map[1 := pack] && s.git == map[1 := refs]
    && s.lastHeld == map[1 := held]
  }

  // What the steps of a push leave in place.
  ghost predicate Beside(s: State, s': State) {
    s'.world.pulls == s.world.pulls && s'.world.log == s.world.log && s'.gets == s.gets && s'.shown == s.shown
        && s'.initial == s.initial
  }

  function BeginLabels(): seq<Label> {
    [OnReceive(BeginPush(1, "ghs_t", "o", "r")), OnReceive(Lock(1)), OnReceive(SnapshotBefore(1, true))]
  }

  lemma PushBegins(c: Casing, now: int, s: State, refs: Refs, held: Refs)
    requires Stage(c, now, s) && s.waiting == map[] && s.packs == map[] && s.git == map[1 := refs]
             && s.lastHeld == map[1 := held]
    ensures var s' := Execute(c, s, BeginLabels());
            Pushing(c, now, s', refs, held, Serving(TheRepository(), TheToken(now), Reading(refs), {})) && Beside(s, s')
  {
    var labels := BeginLabels();
    assert |labels| == 3;
    ThreeSteps(c, s, labels);
    hide Execute; hide Step;
    PushArrives(c, now, s);
    PushLocks(c, now, Step(c, s, labels[0]), refs, held);
    PushReads(c, now, Step(c, Step(c, s, labels[0]), labels[1]), refs, held);
  }

  lemma PushArrives(c: Casing, now: int, s: State)
    requires Stage(c, now, s) && s.waiting == map[]
    ensures Step(c, s, OnReceive(BeginPush(1, "ghs_t", "o", "r")))
            == s.(waiting := map[1 := Waiter(TheToken(now), TheRepository())])
  {
    hide RepoName;
    assert AuthorizePush(c, s.world, "ghs_t", "o", "r") == Some((TheToken(now), TheRepository()));
    hide AuthorizePush;
  }

  lemma PushLocks(c: Casing, now: int, s: State, refs: Refs, held: Refs)
    requires Stage(c, now, s) && s.waiting == map[1 := Waiter(TheToken(now), TheRepository())] && s.packs == map[]
    requires s.git == map[1 := refs] && s.lastHeld == map[1 := held]
    ensures var s' := Step(c, s, OnReceive(Lock(1)));
            Pushing(c, now, s', refs, held, Locked(TheRepository(), TheToken(now))) && Beside(s, s')
  {
    hide RepoName;
  }

  lemma PushReads(c: Casing, now: int, s: State, refs: Refs, held: Refs)
    requires Pushing(c, now, s, refs, held, Locked(TheRepository(), TheToken(now)))
    ensures var s' := Step(c, s, OnReceive(SnapshotBefore(1, true)));
            Pushing(c, now, s', refs, held, Serving(TheRepository(), TheToken(now), Reading(refs), {})) && Beside(s, s')
  {
    hide RepoName; hide Reading; hide TheToken; hide TheRepository; hide Step;
    FirstSnapshotIs(c, s, Locked(TheRepository(), TheToken(now)), refs);
  }

  // The first snapshot, successful.
  lemma FirstSnapshotIs(c: Casing, s: State, p: Pack, refs: Refs)
    requires s.packs == map[1 := p] && p.Locked? && s.git == map[1 := refs]
    ensures Step(c, s, OnReceive(SnapshotBefore(1, true)))
            == s.(packs := map[1 := Serving(p.repository, p.token, Reading(refs), {})])
  {
    hide Reading;
    var l := SnapshotBefore(1, true);
    assert Step(c, s, OnReceive(l)) == PackStep(s, 1, p, l) by { hide PackStep; }
    assert NextPhase(s.world, GitOf(s, 1), p, l) == Some(Serving(p.repository, p.token, Reading(refs), {}));
    hide NextPhase; hide Step;
  }

  lemma PushMoves(c: Casing, now: int, s: State, refs: Refs, held: Refs, before: Refs, ref: string,
                  target: Option<string>)
    requires Pushing(c, now, s, refs, held, Serving(TheRepository(), TheToken(now), before, {}))
    requires target.Some? ==> GitRef(ref, target.value)
    ensures var s' := Step(c, s, OnReceive(MoveRef(1, ref, target)));
            && Pushing(c, now, s', MovedRef(refs, ref, target), HeldAfter(held, ref, target),
                       Serving(TheRepository(), TheToken(now), before, {ref}))
            && Beside(s, s')
  {
    MoveIsStep(c, s, ref, target);
    assert {} + {ref} == {ref};
    MoveIs(s, refs, held, Serving(TheRepository(), TheToken(now), before, {}), ref, target);
    hide MoveStep; hide Step; hide MovedRef; hide HeldAfter; hide RepoName; hide TheRepository; hide TheToken;
  }

  lemma MoveIsStep(c: Casing, s: State, ref: string, target: Option<string>)
    requires 1 in s.packs && s.packs[1].Serving?
    ensures Step(c, s, OnReceive(MoveRef(1, ref, target))) == MoveStep(s, 1, ref, target)
  {
    hide MoveStep;
  }

  lemma MoveIs(s: State, refs: Refs, held: Refs, p: Pack, ref: string, target: Option<string>)
    requires s.packs == map[1 := p] && p.Serving? && p.touched == {} && s.git == map[1 := refs]
             && s.lastHeld == map[1 := held]
    requires target.Some? ==> GitRef(ref, target.value)
    ensures MoveStep(s, 1, ref, target)
            == s.(packs := map[1 := p.(touched := {} + {ref})], git := map[1 := MovedRef(refs, ref, target)],
                  lastHeld := map[1 := HeldAfter(held, ref, target)])
  {
    hide GitRef; hide MovedRef; hide HeldAfter;
    var refs', held', p' := MovedRef(refs, ref, target), HeldAfter(held, ref, target), p.(touched := {} + {ref});
    assert s.git[1 := refs'] == map[1 := refs'] && s.lastHeld[1 := held'] == map[1 := held']
        && s.packs[1 := p'] == map[1 := p'];
  }

  // The push whose second snapshot fails, and its handler's end.
  function LostLabels(): seq<Label> {
    [OnReceive(MoveRef(1, "main", Some("c1"))), OnReceive(SnapshotAfter(1, false)), OnReceive(Unlock(1))]
  }

  // The end of a push whose events were lost.
  ghost predicate Lost(s: State, refs: Refs, pack: Option<Pack>) {
    && s.drafting.None? && 1 in s.world.registry.repositories && s.git == map[1 := refs]
    && s.initial == map[1 := Base(0, 0, map[])]
    && s.world.log.events == [] && s.packs == WithPack(map[], 1, pack)
  }

  lemma SnapshotFails(c: Casing, now: int, s: State, refs: Refs, held: Refs, touched: set<string>)
    requires Pushing(c, now, s, refs, held, Serving(TheRepository(), TheToken(now), map[], touched))
             && s.world.log.events == []
    requires s.initial == map[1 := Base(0, 0, map[])]
    ensures Lost(Step(c, s, OnReceive(SnapshotAfter(1, false))), refs, Some(Releasing(TheRepository())))
  {
    hide RepoName;
  }

  lemma LockReturned(c: Casing, s: State, refs: Refs)
    requires Lost(s, refs, Some(Releasing(TheRepository())))
    ensures Lost(Step(c, s, OnReceive(Unlock(1))), refs, None)
  {
    var p := Releasing(TheRepository());
    var packs: map<int, Pack> := map[];
    assert packs[1 := p] - {1} == packs - {1} == packs;
    hide TheRepository;
    assert Step(c, s, OnReceive(Unlock(1))) == PackStep(s, 1, p, Unlock(1)) by { hide PackStep; }
    assert NextPhase(s.world, GitOf(s, 1), p, Unlock(1)) == None;
    hide NextPhase; hide Step;
  }

  lemma PushLost(c: Casing, now: int, s: State)
    requires Pushing(c, now, s, map[], map[], Serving(TheRepository(), TheToken(now), map[], {}))
             && s.world.log.events == []
    requires s.initial == map[1 := Base(0, 0, map[])]
    ensures Lost(Execute(c, s, LostLabels()), map["main" := "c1"], None)
  {
    var labels := LostLabels();
    assert |labels| == 3;
    ThreeSteps(c, s, labels);
    MainCreated();
    hide Execute; hide Step; hide Lost; hide GitRef; hide MovedRef; hide Pushing;
    PushMoves(c, now, s, map[], map[], map[], "main", Some("c1"));
    PushLostEnd(c, now, s, Step(c, s, labels[0]));
  }

  lemma NothingRead()
    ensures Reading(map[]) == map[]
  {
    ReadingIsWhole(map[]);
    hide Reading;
  }

  lemma MainCreated()
    ensures GitRef("main", "c1") && MovedRef(map[], "main", Some("c1")) == map["main" := "c1"]
  {
  }

  lemma PushLostEnd(c: Casing, now: int, s: State, s1: State)
    requires Beside(s, s1) && s.world.log.events == [] && s.initial == map[1 := Base(0, 0, map[])]
    requires Pushing(c, now, s1, map["main" := "c1"], HeldAfter(map[], "main", Some("c1")),
                     Serving(TheRepository(), TheToken(now), map[], {"main"}))
    ensures Lost(Step(c, Step(c, s1, LostLabels()[1]), LostLabels()[2]), map["main" := "c1"], None)
  {
    hide Step; hide Lost; hide Pushing;
    SnapshotFails(c, now, s1, map["main" := "c1"], HeldAfter(map[], "main", Some("c1")), {"main"});
    LockReturned(c, Step(c, s1, LostLabels()[1]), map["main" := "c1"]);
  }

  // A schedule whose push Git accepts and the event log never hears of.
  lemma AcceptedPushIsLost(c: Casing, now: int)
    ensures var s := Execute(c, Start(now), Setup(now, map[]) + BeginLabels() + LostLabels());
            && Reachable(c, s) && 1 in s.world.registry.repositories && 1 !in s.packs && 1 in s.git && 1 in s.initial
            && s.world.log.events == [] && Replay(s.world.log.events, 1, s.initial[1]) != s.git[1]
  {
    var a, b, d := Setup(now, map[]), BeginLabels(), LostLabels();
    SetupIsReady(c, now, map[]);
    NothingRead();
    var s0 := Execute(c, Start(now), a);
    ReadyToPush(c, now, map[], s0);
    hide *;
    ExecuteAppend(c, Start(now), a, b);
    ExecuteAppend(c, Start(now), a + b, d);
    PushBegins(c, now, s0, map[], map[]);
    BegunBeside(s0, Execute(c, s0, b));
    PushLost(c, now, Execute(c, s0, b));
    LostMeans(Execute(c, Execute(c, s0, b), d), map["main" := "c1"]);
    assert "main" in map["main" := "c1"];
    ReachableFromStart(c, now, a + b + d);
  }

  lemma ReachableFromStart(c: Casing, now: int, labels: seq<Label>)
    ensures Reachable(c, Execute(c, Start(now), labels))
  {
    hide Execute;
  }

  lemma ReadyToPush(c: Casing, now: int, found: Refs, s: State)
    requires Ready(c, now, found, s)
    ensures Stage(c, now, s) && s.waiting == map[] && s.packs == map[] && s.git == map[1 := found]
            && s.lastHeld == map[1 := found]
    ensures s.world.log.events == [] && s.world.pulls == map[] && s.initial == map[1 := Base(0, 0, Reading(found))]
  {
    hide Stage;
  }

  lemma BegunBeside(s: State, s': State)
    requires Beside(s, s')
    ensures s'.world.log.events == s.world.log.events && s'.world.pulls == s.world.pulls && s'.initial == s.initial
  {
  }

  lemma LostMeans(s: State, refs: Refs)
    requires Lost(s, refs, None)
    ensures 1 in s.world.registry.repositories && 1 !in s.packs && 1 in s.git && s.git[1] == refs && 1 in s.initial
    ensures s.world.log.events == [] && Replay(s.world.log.events, 1, s.initial[1]) == map[]
  {
  }

  // A name Git takes and the listing loses: a and b with a no-break space between them.
  function SpacedName(): string {
    "a\U{00A0}b"
  }

  function SpacedLabels(): seq<Label> {
    [OnReceive(MoveRef(1, SpacedName(), Some("c1"))), OnReceive(SnapshotAfter(1, true)), OnReceive(RecordPush(1, {})),
     OnReceive(ListForRefresh(1))]
  }

  // The push of that branch; the log has heard of nothing.
  ghost predicate Unheard(c: Casing, now: int, s: State, refs: Refs, pack: Pack) {
    && Pushing(c, now, s, refs, HeldAfter(map[], SpacedName(), Some("c1")), pack)
    && s.world.pulls == map[] && s.world.log.events == []
  }

  lemma SpacedIsUnread()
    ensures GitRef(SpacedName(), "c1") && !SpaceFree(map[SpacedName() := "c1"])
    ensures MovedRef(map[], SpacedName(), Some("c1")) == map[SpacedName() := "c1"]
    ensures Reading(map[SpacedName() := "c1"]) == map[]
  {
    var name, refs := SpacedName(), map[SpacedName() := "c1"];
    assert name in refs && name[1] == '\U{00A0}' && !NoSpace(name);
    SpacedFields();
    ListingReads(refs, SortedKeys(refs.Keys));
    hide Fields; hide Parse; hide Listing; hide SortedKeys;
    assert forall n, w :: n in refs ==> Fields(n) != [w];
    assert Reading(refs).Keys == {};
  }

  lemma SpacedFields()
    ensures Fields(SpacedName()) == ["a", "b"]
  {
    var s := SpacedName();
    assert s == "a" + "\U{00A0}b" && "\U{00A0}b"[1..] == "b";
    WordStops("a", "\U{00A0}b");
    assert s[1..] == "\U{00A0}b";
    FieldsOfWord("b");
    assert TrimLeft("b") == "b" && TrimLeft("\U{00A0}b") == "b";
    TrimmedFields("\U{00A0}b");
    hide Fields;
    FieldsStep(s);
  }

  lemma SpacedPushed(c: Casing, now: int, s: State)
    requires Pushing(c, now, s, map[], map[], Serving(TheRepository(), TheToken(now), map[], {}))
    requires s.world.pulls == map[] && s.world.log.events == []
    ensures Unheard(c, now, Execute(c, s, SpacedLabels()), map[SpacedName() := "c1"],
                    Refreshing(TheRepository(), map[]))
  {
    var labels := SpacedLabels();
    FourSteps(c, s, labels);
    SpacedIsUnread();
    hide Execute; hide Step; hide Unheard; hide Pushing; hide GitRef; hide MovedRef; hide Reading; hide SpacedName;
    hide HeldAfter;
    PushMoves(c, now, s, map[], map[], map[], SpacedName(), Some("c1"));
    var s1 := Step(c, s, labels[0]);
    SpacedObserved(c, now, s1, Unread(), {SpacedName()});
    SpacedRecorded(c, now, Step(c, s1, labels[1]), Unread());
    SpacedListed(c, now, Step(c, Step(c, s1, labels[1]), labels[2]), Unread());
  }

  function Unread(): Refs {
    map[SpacedName() := "c1"]
  }

  lemma SpacedObserved(c: Casing, now: int, s: State, refs: Refs, touched: set<string>)
    requires Unheard(c, now, s, refs, Serving(TheRepository(), TheToken(now), map[], touched)) && Reading(refs) == map[]
    ensures Unheard(c, now, Step(c, s, OnReceive(SnapshotAfter(1, true))), refs,
                    Observed(TheRepository(), TheToken(now), map[], map[]))
  {
    hide RepoName; hide Reading; hide SpacedName; hide HeldAfter; hide TheToken; hide TheRepository; hide Step;
    SnapshotIs(c, s, Serving(TheRepository(), TheToken(now), map[], touched), refs);
  }

  lemma SpacedRecorded(c: Casing, now: int, s: State, refs: Refs)
    requires Unheard(c, now, s, refs, Observed(TheRepository(), TheToken(now), map[], map[]))
    ensures Unheard(c, now, Step(c, s, OnReceive(RecordPush(1, {}))), refs, Recording(TheRepository()))
  {
    UnmovedWorld(c, s, 1, {});
    hide RepoName; hide SpacedName; hide HeldAfter; hide RecordedWorld;
  }

  lemma SpacedListed(c: Casing, now: int, s: State, refs: Refs)
    requires Unheard(c, now, s, refs, Recording(TheRepository()))
    ensures Unheard(c, now, Step(c, s, OnReceive(ListForRefresh(1))), refs, Refreshing(TheRepository(), map[]))
  {
    hide RepoName; hide SpacedName; hide HeldAfter;
    assert ListPulls(s.world, 1) == map[];
    hide ListPulls;
  }

  lemma SpacedReleased(c: Casing, now: int, s: State, refs: Refs)
    requires Unheard(c, now, s, refs, Refreshing(TheRepository(), map[]))
    ensures var s' := Step(c, s, OnReceive(Unlock(1)));
            && s'.packs == map[] && s'.git == map[1 := refs] && s'.world.errors == [] && s'.world.log.events == []
            && 1 in s'.world.registry.repositories
  {
    hide RepoName; hide SpacedName; hide HeldAfter;
    assert map[1 := Refreshing(TheRepository(), map[])] - {1} == map[];
  }

  // A schedule whose push creates a branch that Git keeps and nobody is ever told of: both
  // snapshots succeed, no error is recorded, the log is empty.
  lemma SpacedBranchIsLost(c: Casing, now: int)
    ensures var s := Execute(c, Start(now),
                             Setup(now, map[]) + BeginLabels() + SpacedLabels() + [OnReceive(Unlock(1))]);
            && Reachable(c, s) && 1 in s.world.registry.repositories && s.packs == map[] && s.world.errors == []
            && s.git == map[1 := Unread()] && s.world.log.events == []
  {
    var a, b, d, e := Setup(now, map[]), BeginLabels(), SpacedLabels(), [OnReceive(Unlock(1))];
    SetupIsReady(c, now, map[]);
    NothingRead();
    var s0 := Execute(c, Start(now), a);
    ReadyToPush(c, now, map[], s0);
    hide *;
    ExecuteAppend(c, Start(now), a, b);
    ExecuteAppend(c, Start(now), a + b, d);
    ExecuteAppend(c, Start(now), a + b + d, e);
    PushBegins(c, now, s0, map[], map[]);
    BegunBeside(s0, Execute(c, s0, b));
    SpacedPushed(c, now, Execute(c, s0, b));
    OneStep(c, Execute(c, Execute(c, s0, b), d), OnReceive(Unlock(1)));
    SpacedReleased(c, now, Execute(c, Execute(c, s0, b), d), map[SpacedName() := "c1"]);
    ReachableFromStart(c, now, a + b + d + e);
  }

  function TheKey(): PullKey {
    PullKey(1, 1)
  }

  function Branches(topic: string): Refs {
    map["main" := "c0", "topic" := topic]
  }

  function ThePull(head: string): Pull {
    Pull("main", "topic", "c0", head, "open", false)
  }

  function ReadLabels(): seq<Label> {
    [OnControl(OpenPull(PullInput(1, 1, "main", "topic", "", false))), OnControl(ClosePull),
     OnPublic(BeginGet(1, "ghs_t", "o", "r", 1)), OnPublic(ReadStored(1))]
  }

  // A pull request exists and its branches are as given; no push is under way.
  ghost predicate Quiet(c: Casing, now: int, s: State, topic: string) {
    && Stage(c, now, s) && s.waiting == map[] && s.packs == map[] && s.world.pulls == map[TheKey() := ThePull(topic)]
    && s.git == map[1 := Branches(topic)] && s.lastHeld == map[1 := Branches(topic)]
  }

  // Handler 1 has read the pull request while its head was at c1.
  ghost predicate HasRead(s: State) {
    s.gets == map[1 := PullRead(TheKey(), ThePull("c1"))] && s.shown == []
  }

  lemma PullDrafted(c: Casing, now: int, s: State)
    requires Ready(c, now, Branches("c1"), s)
    ensures Step(c, s, ReadLabels()[0]) == s.(drafting := Some(Draft(TheKey(), "main", "topic", "open", false, "c0")))
  {
    hide RepoName; hide Reading;
    var input := PullInput(1, 1, "main", "topic", "", false);
    assert CheckPull(s.world, input) == 0 && GitOf(s, 1) == Branches("c1");
    assert DraftOf(input, Branches("c1")) == Draft(TheKey(), "main", "topic", "open", false, "c0");
    hide CheckPull; hide DraftOf; hide Branches;
  }

  lemma PullFinished(c: Casing, now: int, s: State)
    requires s.drafting == Some(Draft(TheKey(), "main", "topic", "open", false, "c0")) && 1 in s.git
             && s.git[1] == Branches("c1")
    ensures Step(c, s, ReadLabels()[1])
            == s.(world := s.world.(pulls := s.world.pulls[TheKey() := ThePull("c1")],
                                    mutations := s.world.mutations + 1), drafting := None)
  {
    var d := Draft(TheKey(), "main", "topic", "open", false, "c0");
    assert FinishPull(s.world, d, Branches("c1")).world
           == s.world.(pulls := s.world.pulls[TheKey() := ThePull("c1")], mutations := s.world.mutations + 1);
    hide FinishPull; hide Branches; hide ThePull;
  }

  lemma PullOpened(c: Casing, now: int, s: State)
    requires Ready(c, now, Branches("c1"), s)
    ensures var s' := Step(c, Step(c, s, ReadLabels()[0]), ReadLabels()[1]);
            Quiet(c, now, s', "c1") && s'.gets == map[] && s'.shown == []
  {
    PullDrafted(c, now, s);
    PullFinished(c, now, Step(c, s, ReadLabels()[0]));
    hide Step; hide RepoName; hide Reading; hide Branches; hide ThePull; hide TheToken; hide TheRepository;
  }

  lemma PullIsRead(c: Casing, now: int, s: State)
    requires Quiet(c, now, s, "c1") && s.gets == map[] && s.shown == []
    ensures var s' := Step(c, Step(c, s, ReadLabels()[2]), ReadLabels()[3]);
            Quiet(c, now, s', "c1") && HasRead(s')
  {
    ReaderAsks(c, now, s);
    PullReadable(c, now, s);
    hide RepoName; hide ReadPull; hide TheToken; hide ThePull; hide Branches; hide Authenticate;
    var s1 := Step(c, s, ReadLabels()[2]);
    assert Step(c, s1, ReadLabels()[3]) == s1.(gets := map[1 := PullRead(TheKey(), ThePull("c1"))]);
  }

  lemma ReaderAsks(c: Casing, now: int, s: State)
    requires Quiet(c, now, s, "c1") && s.gets == map[]
    ensures Step(c, s, ReadLabels()[2]) == s.(gets := map[1 := Asked(TheToken(now), "o", "r", 1)])
  {
    hide RepoName; hide ThePull; hide Branches;
  }

  lemma PullReadable(c: Casing, now: int, s: State)
    requires Quiet(c, now, s, "c1")
    ensures ReadPull(c, s.world, TheToken(now), "o", "r", 1) == Some(Stored(TheKey(), ThePull("c1")))
  {
    hide RepoName; hide ThePull; hide Branches;
    assert CanReadPulls(Granted());
  }

  lemma ReaderStarts(c: Casing, now: int, s: State)
    requires Ready(c, now, Branches("c1"), s)
    ensures var s' := Execute(c, s, ReadLabels()); Quiet(c, now, s', "c1") && HasRead(s')
  {
    FourSteps(c, s, ReadLabels());
    hide Execute; hide Step; hide Quiet; hide HasRead; hide Ready;
    PullOpened(c, now, s);
    PullIsRead(c, now, Step(c, Step(c, s, ReadLabels()[0]), ReadLabels()[1]));
  }

  lemma FourSteps(c: Casing, s: State, labels: seq<Label>)
    requires |labels| == 4
    ensures Execute(c, s, labels) == Step(c, Step(c, Step(c, Step(c, s, labels[0]), labels[1]), labels[2]), labels[3])
  {
    assert labels[..3][..3] == labels[..3] && labels[..4] == labels;
    ThreeSteps(c, s, labels[..3]);
    ExecuteNext(c, s, labels, 3);
    hide Step; hide Execute;
  }

  // The rest of a push after its refs have moved: it records them and lists the pull requests.
  function RecordLabels(): seq<Label> {
    [OnReceive(SnapshotAfter(1, true)), OnReceive(RecordPush(1, {})), OnReceive(ListForRefresh(1))]
  }

  // It refreshes the one pull request and gives the lock back.
  function RefreshLabels(): seq<Label> {
    [OnReceive(ResolvePull(1, TheKey())), OnReceive(WritePull(1)), OnReceive(Unlock(1))]
  }

  function EndLabels(): seq<Label> {
    RecordLabels() + RefreshLabels()
  }

  // The pull request, its branches and the reader in the middle of the push that moves topic to c2.
  ghost predicate Moving(c: Casing, now: int, s: State, head: string, pack: Pack) {
    Pushing(c, now, s, Branches("c2"), Branches("c2"), pack) && s.world.pulls == map[TheKey() := ThePull(head)]
        && HasRead(s)
  }

  lemma BranchesRead(topic: string)
    requires ObjectID(topic)
    ensures Reading(Branches(topic)) == Branches(topic)
  {
    BranchesListable(topic);
    hide *;
    ReadingIsWhole(Branches(topic));
  }

  lemma BranchesListable(topic: string)
    requires ObjectID(topic)
    ensures Listable(Branches(topic)) && SpaceFree(Branches(topic))
  {
  }

  // The second snapshot, successful.
  lemma SnapshotIs(c: Casing, s: State, p: Pack, refs: Refs)
    requires s.packs == map[1 := p] && p.Serving? && s.git == map[1 := refs]
    ensures Step(c, s, OnReceive(SnapshotAfter(1, true)))
            == s.(packs := map[1 := Observed(p.repository, p.token, p.before, Reading(refs))])
  {
    hide Reading;
    var l := SnapshotAfter(1, true);
    assert Step(c, s, OnReceive(l)) == PackStep(s, 1, p, l) by { hide PackStep; }
    assert NextPhase(s.world, GitOf(s, 1), p, l) == Some(Observed(p.repository, p.token, p.before, Reading(refs)));
    hide NextPhase; hide Step;
  }

  lemma SnapshotTaken(c: Casing, now: int, s: State)
    requires Moving(c, now, s, "c1", Serving(TheRepository(), TheToken(now), Branches("c1"), {"topic"}))
    ensures Moving(c, now, Step(c, s, RecordLabels()[0]), "c1",
                   Observed(TheRepository(), TheToken(now), Branches("c1"), Branches("c2")))
  {
    BranchesRead("c2");
    hide RepoName; hide Branches; hide Reading; hide TheToken; hide TheRepository; hide ThePull; hide Step;
    SnapshotIs(c, s, Serving(TheRepository(), TheToken(now), Branches("c1"), {"topic"}), Branches("c2"));
  }

  lemma PushRecorded(c: Casing, now: int, s: State)
    requires Moving(c, now, s, "c1", Observed(TheRepository(), TheToken(now), Branches("c1"), Branches("c2")))
    ensures Moving(c, now, Step(c, s, RecordLabels()[1]), "c1", Recording(TheRepository()))
  {
    hide RepoName; hide Branches; hide RecordRefs; hide PushedRefs;
  }

  lemma RefreshListed(c: Casing, now: int, s: State)
    requires Moving(c, now, s, "c1", Recording(TheRepository()))
    ensures Moving(c, now, Step(c, s, RecordLabels()[2]), "c1",
                   Refreshing(TheRepository(), map[TheKey() := ("main", "topic")]))
  {
    hide RepoName; hide Branches;
    assert ListPulls(s.world, 1) == map[TheKey() := ("main", "topic")];
    hide ListPulls;
  }

  lemma RefreshResolved(c: Casing, now: int, s: State)
    requires Moving(c, now, s, "c1", Refreshing(TheRepository(), map[TheKey() := ("main", "topic")]))
    ensures Moving(c, now, Step(c, s, RefreshLabels()[0]), "c1",
                   Writing(TheRepository(), map[], TheKey(), "main", "topic", "c0", "c2"))
  {
    hide RepoName;
    assert Lookup(Branches("c2"), "main") == "c0" && Lookup(Branches("c2"), "topic") == "c2";
    hide Branches; hide Lookup;
    assert map[TheKey() := ("main", "topic")] - {TheKey()} == map[];
  }

  lemma RefreshWritten(c: Casing, now: int, s: State)
    requires Moving(c, now, s, "c1", Writing(TheRepository(), map[], TheKey(), "main", "topic", "c0", "c2"))
    ensures Moving(c, now, Step(c, s, RefreshLabels()[1]), "c2", Refreshing(TheRepository(), map[]))
  {
    hide RepoName; hide Branches;
    assert RefreshPull(s.world, TheKey(), "main", "topic", "c0", "c2")
        == s.world.(pulls := map[TheKey() := ThePull("c2")]);
    hide RefreshPull;
  }

  lemma PushEnds(c: Casing, now: int, s: State)
    requires Moving(c, now, s, "c2", Refreshing(TheRepository(), map[]))
    ensures Quiet(c, now, Step(c, s, RefreshLabels()[2]), "c2") && HasRead(Step(c, s, RefreshLabels()[2]))
  {
    hide RepoName; hide Branches;
    assert map[1 := Refreshing(TheRepository(), map[])] - {1} == map[];
  }

  lemma PushCompletes(c: Casing, now: int, s: State)
    requires Moving(c, now, s, "c1", Serving(TheRepository(), TheToken(now), Branches("c1"), {"topic"}))
    ensures Quiet(c, now, Execute(c, s, EndLabels()), "c2") && HasRead(Execute(c, s, EndLabels()))
  {
    assert |RecordLabels()| == 3 && |RefreshLabels()| == 3;
    ThreeSteps(c, s, RecordLabels());
    var s3 := Execute(c, s, RecordLabels());
    ThreeSteps(c, s3, RefreshLabels());
    hide Execute; hide Step; hide Moving; hide Quiet; hide HasRead; hide RecordLabels; hide RefreshLabels;
    SnapshotTaken(c, now, s);
    PushRecorded(c, now, Step(c, s, RecordLabels()[0]));
    RefreshListed(c, now, Step(c, Step(c, s, RecordLabels()[0]), RecordLabels()[1]));
    RefreshResolved(c, now, s3);
    RefreshWritten(c, now, Step(c, s3, RefreshLabels()[0]));
    PushEnds(c, now, Step(c, Step(c, s3, RefreshLabels()[0]), RefreshLabels()[1]));
    ExecuteAppend(c, s, RecordLabels(), RefreshLabels());
  }

  function MoveTopic(target: Option<string>): Label {
    OnReceive(MoveRef(1, "topic", target))
  }

  function AnswerLabels(): seq<Label> {
    [OnPublic(ResolveBase(1)), OnPublic(ResolveHead(1))]
  }

  // The reader's answer, while a second push has deleted the head branch.
  lemma ReaderIsAnswered(c: Casing, now: int, s: State, held: Refs, pack: Pack)
    requires Pushing(c, now, s, map["main" := "c0"], held, pack) && HasRead(s)
    ensures var s' := Step(c, Step(c, s, AnswerLabels()[0]), AnswerLabels()[1]);
            s'.shown == [Answer(TheKey(), ThePull("c1"))] && s'.git == s.git && s'.lastHeld == s.lastHeld
                && s'.world == s.world
  {
    hide RepoName; hide Reading; hide Step; hide TheToken; hide TheRepository;
    var refs := map["main" := "c0"];
    BaseIsResolved(c, s, refs);
    HeadIsResolved(c, s.(gets := map[1 := BaseResolved(TheKey(), ThePull("c1"), "c0")]), refs);
  }

  lemma BaseIsResolved(c: Casing, s: State, refs: Refs)
    requires HasRead(s) && s.git == map[1 := refs] && refs == map["main" := "c0"]
    ensures Step(c, s, AnswerLabels()[0]) == s.(gets := map[1 := BaseResolved(TheKey(), ThePull("c1"), "c0")])
  {
    assert GitOf(s, 1) == refs && Shown(refs, "main", "c0") == "c0";
    hide Shown;
  }

  lemma HeadIsResolved(c: Casing, s: State, refs: Refs)
    requires s.gets == map[1 := BaseResolved(TheKey(), ThePull("c1"), "c0")] && s.shown == []
    requires s.git == map[1 := refs] && refs == map["main" := "c0"]
    ensures Step(c, s, AnswerLabels()[1]) == s.(gets := map[], shown := [Answer(TheKey(), ThePull("c1"))])
  {
    assert GitOf(s, 1) == refs && Shown(refs, "topic", "c1") == "c1";
    assert s.gets - {1} == map[];
    hide Shown;
  }

  // A pull request is read while its head branch is at c1; a first push moves the branch to c2, a
  // second one deletes it, and only then are the branches resolved.
  function StaleSchedule(now: int): seq<Label> {
    Setup(now, Branches("c1")) + ReadLabels() + (BeginLabels() + [MoveTopic(Some("c2"))] + EndLabels())
    + (BeginLabels() + [MoveTopic(None)]) + AnswerLabels()
  }

  // A push begins, and moves one branch.
  lemma PushBeginsMoving(c: Casing, now: int, s: State, refs: Refs, ref: string, target: Option<string>)
    requires Stage(c, now, s) && s.waiting == map[] && s.packs == map[] && s.git == map[1 := refs]
             && s.lastHeld == map[1 := refs]
    requires Reading(refs) == refs && (target.Some? ==> GitRef(ref, target.value))
    ensures var s' := Execute(c, s, BeginLabels() + [OnReceive(MoveRef(1, ref, target))]);
            && Pushing(c, now, s', MovedRef(refs, ref, target), HeldAfter(refs, ref, target),
                       Serving(TheRepository(), TheToken(now), refs, {ref}))
            && Beside(s, s')
  {
    var s1, l := Execute(c, s, BeginLabels()), OnReceive(MoveRef(1, ref, target));
    PushBegins(c, now, s, refs, refs);
    PushMoves(c, now, s1, refs, refs, refs, ref, target);
    OneStep(c, s1, l);
    ExecuteAppend(c, s, BeginLabels(), [l]);
    hide Step; hide Execute; hide BeginLabels; hide Pushing; hide GitRef; hide MovedRef; hide HeldAfter; hide Reading;
  }

  // The first push: topic moves from c1 to c2, and the stored pull request follows.
  lemma FirstPush(c: Casing, now: int, s: State)
    requires Quiet(c, now, s, "c1") && HasRead(s)
    ensures var s' := Execute(c, s, BeginLabels() + [MoveTopic(Some("c2"))] + EndLabels());
            Quiet(c, now, s', "c2") && HasRead(s')
  {
    BranchesRead("c1");
    TopicMoves();
    hide Step; hide Execute; hide Branches; hide BeginLabels; hide EndLabels; hide Pushing; hide GitRef; hide MovedRef;
    hide HeldAfter;
    hide Reading;
    PushBeginsMoving(c, now, s, Branches("c1"), "topic", Some("c2"));
    ExecuteAppend(c, s, BeginLabels() + [MoveTopic(Some("c2"))], EndLabels());
    PushCompletes(c, now, Execute(c, s, BeginLabels() + [MoveTopic(Some("c2"))]));
  }

  lemma TopicMoves()
    ensures MovedRef(Branches("c1"), "topic", Some("c2")) == Branches("c2")
            && HeldAfter(Branches("c1"), "topic", Some("c2")) == Branches("c2")
    ensures GitRef("topic", "c2")
  {
  }

  // The second push: topic is deleted, and the push is still being served.
  lemma SecondPush(c: Casing, now: int, s: State)
    requires Quiet(c, now, s, "c2") && HasRead(s)
    ensures var s' := Execute(c, s, BeginLabels() + [MoveTopic(None)]);
            && Pushing(c, now, s', map["main" := "c0"], Branches("c2"),
                       Serving(TheRepository(), TheToken(now), Branches("c2"), {"topic"}))
            && HasRead(s')
  {
    BranchesRead("c2");
    TopicGone();
    hide Step; hide Execute; hide Branches; hide BeginLabels; hide Pushing; hide GitRef; hide MovedRef; hide HeldAfter;
    hide Reading;
    PushBeginsMoving(c, now, s, Branches("c2"), "topic", None);
  }

  lemma TopicGone()
    ensures MovedRef(Branches("c2"), "topic", None) == map["main" := "c0"]
            && HeldAfter(Branches("c2"), "topic", None) == Branches("c2")
  {
  }

  // The reader was shown c1 for the head although the branch, now absent, named c2 last.
  ghost predicate ShownStale(s: State) {
    && s.world.errors == [] && s.shown == [Answer(TheKey(), ThePull("c1"))]
    && 1 in s.git && "topic" !in s.git[1]
    && 1 in s.lastHeld && "topic" in s.lastHeld[1] && s.lastHeld[1]["topic"] == "c2"
  }

  lemma StaleHeadIsShown(c: Casing, now: int)
    ensures Reachable(c, Execute(c, Start(now), StaleSchedule(now)))
            && ShownStale(Execute(c, Start(now), StaleSchedule(now)))
  {
    var setup, first, second := Setup(now, Branches("c1")), BeginLabels() + [MoveTopic(Some("c2"))] + EndLabels(),
        BeginLabels() + [MoveTopic(None)];
    assert GitRefs(Branches("c1"));
    SetupIsReady(c, now, Branches("c1"));
    StaleInParts(c, now, setup, first, second);
    hide *;
    StalePlay(c, now, Execute(c, Start(now), setup), first, second);
    ReachableFromStart(c, now, StaleSchedule(now));
  }

  lemma StaleInParts(c: Casing, now: int, setup: seq<Label>, first: seq<Label>, second: seq<Label>)
    requires StaleSchedule(now) == setup + ReadLabels() + first + second + AnswerLabels()
    ensures Execute(c, Start(now), StaleSchedule(now))
            == Execute(c, Execute(c, Execute(c, Execute(c, Execute(c, Start(now), setup), ReadLabels()), first),
                                  second), AnswerLabels())
  {
    hide *;
    ExecuteAppend(c, Start(now), setup, ReadLabels());
    ExecuteAppend(c, Start(now), setup + ReadLabels(), first);
    ExecuteAppend(c, Start(now), setup + ReadLabels() + first, second);
    ExecuteAppend(c, Start(now), setup + ReadLabels() + first + second, AnswerLabels());
  }

  lemma StalePlay(c: Casing, now: int, s: State, first: seq<Label>, second: seq<Label>)
    requires Ready(c, now, Branches("c1"), s)
    requires first == BeginLabels() + [MoveTopic(Some("c2"))] + EndLabels()
             && second == BeginLabels() + [MoveTopic(None)]
    ensures ShownStale(Execute(c, Execute(c, Execute(c, Execute(c, s, ReadLabels()), first), second), AnswerLabels()))
  {
    ReaderStarts(c, now, s);
    var s1 := Execute(c, s, ReadLabels());
    FirstPush(c, now, s1);
    var s2 := Execute(c, s1, first);
    SecondPush(c, now, s2);
    var s3 := Execute(c, s2, second);
    AnswersAre(c, s3);
    hide Execute; hide Step;
    ReaderIsAnswered(c, now, s3, Branches("c2"), Serving(TheRepository(), TheToken(now), Branches("c2"), {"topic"}));
  }

  lemma AnswersAre(c: Casing, s: State)
    ensures Execute(c, s, AnswerLabels()) == Step(c, Step(c, s, AnswerLabels()[0]), AnswerLabels()[1])
  {
    var labels := AnswerLabels();
    assert |labels| == 2 && labels[..0] == [] && labels[..2] == labels;
    NoSteps(c, s);
    ExecuteNext(c, s, labels, 0);
    ExecuteNext(c, s, labels, 1);
  }
}
