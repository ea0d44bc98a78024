/** The running twin: the shared world, the Git repositories beside it, and every handler
    that is between two of its locked regions. One label is one atomic step, and a run of
    the twin is a sequence of labels, so a schedule of any handlers in any order is a run. */
module Twin {
  import opened Text
  import opened RefListing
  import opened Model
  import opened EventLog
  import opened ControlRegions
  import opened PublicRegions
  import opened RunRegions
  import opened ReceiveRegions

  /** An execution handler after its claim. */
  datatype Executor =
    | Preparing(runID: int, index: nat, repository: Repository, workflow: Workflow)
    | Running(runID: int, index: nat, repository: Repository)

  /** The receive-pack handler that holds a repository's receive lock. */
  datatype Pack =
    | Locked(repository: Repository, token: Token)
    | Serving(repository: Repository, token: Token, before: Refs, touched: set<string>)
    | Observed(repository: Repository, token: Token, before: Refs, after: Refs)
    | Recording(repository: Repository)
    | Refreshing(repository: Repository, todo: map<PullKey, (string, string)>)
    | Writing(repository: Repository, todo: map<PullKey, (string, string)>,
              key: PullKey, baseRef: string, headRef: string, baseSHA: string, headSHA: string)
    | Releasing(repository: Repository)

  datatype Waiter = Waiter(token: Token, repository: Repository)

  /** A token request after its JWT's issuer was found; `accepted` once its time claims were. */
  datatype Mint = Mint(appID: int, issuedAt: int, expiresAt: int, request: TokenRequest, accepted: bool)

  /** An authenticated cancellation request. */
  datatype Cancellation = Cancellation(token: Token, owner: string, name: string, runID: int)

  /** A PullRequests.Get handler: authenticated, after its locked read, after it resolved the base. */
  datatype Get =
    | Asked(token: Token, owner: string, name: string, number: int)
    | PullRead(key: PullKey, pull: Pull)
    | BaseResolved(key: PullKey, pull: Pull, baseSHA: string)

  /** What a reader of a pull request was shown. */
  datatype Answer = Answer(key: PullKey, pull: Pull)

  /** What a webhook receiver was sent: the two GitHub headers, the body, and what the signature is
      computed from, which is the body, the secret and whether the secret was spoilt. */
  datatype Post = Post(guid: string, kind: string, body: Body, destination: string, secret: string,
                       invalidSignature: bool)

  /** A delivery handler after its read, and once its message, the one at index `post` of those
      sent, was answered. */
  datatype Delivering = Fetched(delivery: Delivery) | Answered(attempt: Attempt, post: nat)

  /** `initial` and `lastHeld` are auxiliary: what the twin read of the branches a repository was
      registered with, and the last object id each of its branches ever named. No step reads them,
      nor `sent`, the messages sent, `logged`, which message each recorded attempt is about, and
      `shown`. */
  datatype State = State(
    world: World,
    git: map<int, Refs>,
    packs: map<int, Pack>,
    waiting: map<int, Waiter>,
    drafting: Option<Draft>,
    executors: map<int, Executor>,
    deliveries: map<int, Delivering>,
    mints: map<int, Mint>,
    cancels: map<int, Cancellation>,
    gets: map<int, Get>,
    initial: map<int, Base>,
    lastHeld: map<int, Refs>,
    sent: seq<Post>,
    logged: seq<nat>,
    shown: seq<Answer>)

  function Start(now: int): State {
    State(EmptyWorld(now), map[], map[], map[], None, map[], map[], map[], map[], map[], map[], map[], [], [], [])
  }

  datatype ControlLabel =
    | AddApp(app: App, keyOk: bool)
    | AddInstallation(installation: InstallationInput)
    | AddRepository(repository: RepositoryInput, initOk: bool, configOk: bool, found: Refs)
    | OpenPull(pull: PullInput)
    | ClosePull
    | SetPullState(key: PullKey, state: string)
    | Advance(duration: Option<int>)
    | Configure(repositoryID: int, workflow: Workflow, refOk: bool)
    | Unsupport(verb: string, path: string)

  datatype PublicLabel =
    | FindIssuer(id: int, signed: bool, appID: int, issuedAt: int, expiresAt: int, request: TokenRequest)
    | CheckTimes(id: int)
    | MintToken(id: int, value: string)
    | BeginCancel(id: int, raw: string, owner: string, name: string, runID: int)
    | Cancel(id: int, delivered: bool)
    | BeginGet(id: int, raw: string, owner: string, name: string, number: int)
    | ReadStored(id: int)
    | ResolveBase(id: int)
    | ResolveHead(id: int)

  datatype RunLabel =
    | ClaimRun(id: int, runID: int)
    | Abandon(id: int)
    | StartProcess(id: int, startOk: bool)
    | StopProcesses
    | FinishProcess(id: int, exitZero: bool, logs: string)
    | Transition(runID: int, wanted: WantedStatus, conclusion: string)

  datatype DeliveryLabel =
    | Duplicate(guid: string)
    | Fetch(id: int, guid: string, invalidSignature: bool)
    | Send(id: int, statusCode: Option<int>)
    | LogDelivery(id: int)

  datatype ReceiveLabel =
    | BeginPush(id: int, raw: string, owner: string, name: string)
    | Lock(id: int)
    | SnapshotBefore(repo: int, ok: bool)
    | MoveRef(repo: int, ref: string, target: Option<string>)
    | SnapshotAfter(repo: int, ok: bool)
    | RecordPush(repo: int, ancestry: Ancestry)
    | ListForRefresh(repo: int)
    | ResolvePull(repo: int, key: PullKey)
    | WritePull(repo: int)
    | Unlock(repo: int)

  datatype Label =
    | OnControl(control: ControlLabel)
    | OnPublic(public: PublicLabel)
    | OnRun(run: RunLabel)
    | OnDelivery(delivery: DeliveryLabel)
    | OnReceive(receive: ReceiveLabel)

  function AddRepositoryStep(c: Casing, s: State, l: ControlLabel): State
    requires l.AddRepository?
  {
    var done := CreateRepository(c, s.world, l.repository, l.initOk, l.configOk);
    var added := done.status == 201 && GitRefs(l.found);
    s.(world := if added then done.world else s.world,
       git := if added then s.git[l.repository.id := l.found] else s.git,
       initial := if added then s.initial[l.repository.id := Base(0, 0, Reading(l.found))] else s.initial,
       lastHeld := if added then s.lastHeld[l.repository.id := l.found] else s.lastHeld)
  }

  function GitOf(s: State, repo: int): Refs {
    if repo in s.git then s.git[repo] else map[]
  }

  // The world once the pull request under way is stored or refused.
  function WithDraft(s: State): World {
    if s.drafting.Some? then FinishPull(s.world, s.drafting.value, GitOf(s, s.drafting.value.key.repositoryID)).world
        else s.world
  }

  function ControlStep(c: Casing, s: State, l: ControlLabel): State {
    match l
    case AddApp(app, keyOk) => s.(world := CreateApp(s.world, app, keyOk).world)
    case AddInstallation(input) => s.(world := CreateInstallation(s.world, input).world)
    case AddRepository(_, _, _, _) => AddRepositoryStep(c, s, l)
    case OpenPull(input) =>
      s.(drafting := if CheckPull(s.world, input) == 0 then Some(DraftOf(input, GitOf(s, input.repositoryID)))
         else s.drafting)
    case ClosePull => s.(world := WithDraft(s), drafting := None)
    case SetPullState(key, state) => s.(world := ChangePullState(s.world, key, state).world)
    case Advance(duration) => s.(world := AdvanceTime(s.world, duration).world)
    case Configure(repo, workflow, refOk) => s.(world := ConfigureWorkflow(s.world, repo, workflow, refOk).world)
    case Unsupport(verb, path) => s.(world := RecordUnsupported(s.world, verb, path))
  }

  // A request whose JWT is outside its time window is dropped.
  function CheckMint(mints: map<int, Mint>, id: int, now: int): map<int, Mint>
    requires id in mints
  {
    if JwtAccepted(mints[id].issuedAt, mints[id].expiresAt, now) then mints[id := mints[id].(accepted := true)]
        else mints - {id}
  }

  function AfterRead(gets: map<int, Get>, id: int, stored: Option<Stored>): map<int, Get> {
    if stored.Some? then gets[id := PullRead(stored.value.key, stored.value.pull)] else gets - {id}
  }

  // Handler `id` is at the given point of its way.
  predicate HasAsked(s: State, id: int) {
    id in s.gets && s.gets[id].Asked?
  }

  predicate HasPull(s: State, id: int) {
    id in s.gets && s.gets[id].PullRead?
  }

  predicate HasBase(s: State, id: int) {
    id in s.gets && s.gets[id].BaseResolved?
  }

  function AnswerOf(g: Get, refs: Refs): Answer
    requires g.BaseResolved?
  {
    Answer(g.key, g.pull.(baseSHA := g.baseSHA, headSHA := Shown(refs, g.pull.headRef, g.pull.headSHA)))
  }

  // The steps of a PullRequests.Get handler.
  function GetStep(c: Casing, s: State, l: PublicLabel): State
    requires l.BeginGet? || l.ReadStored? || l.ResolveBase? || l.ResolveHead?
  {
    match l
    case BeginGet(id, raw, owner, name, number) =>
      var token := Authenticate(s.world, raw);
      s.(gets := if id in s.gets || token.None? then s.gets else s.gets[id := Asked(token.value, owner, name, number)])
    case ReadStored(id) =>
      s.(gets := if HasAsked(s, id)
                 then AfterRead(s.gets, id,
                                ReadPull(c, s.world, s.gets[id].token, s.gets[id].owner, s.gets[id].name,
                                         s.gets[id].number))
                 else s.gets)
    case ResolveBase(id) =>
      s.(gets := if HasPull(s, id)
                 then s.gets[id := BaseResolved(s.gets[id].key, s.gets[id].pull,
                                                Shown(GitOf(s, s.gets[id].key.repositoryID), s.gets[id].pull.baseRef,
                                                      s.gets[id].pull.baseSHA))]
                 else s.gets)
    case ResolveHead(id) =>
      s.(gets := if HasBase(s, id) then s.gets - {id} else s.gets,
         shown := if HasBase(s, id) then s.shown + [AnswerOf(s.gets[id], GitOf(s, s.gets[id].key.repositoryID))]
             else s.shown)
  }

  // A fresh random value: a collision of 256 random bits is not modelled.
  predicate MayMint(s: State, id: int, value: string) {
    id in s.mints && s.mints[id].accepted && value !in s.world.tokens
  }

  // The world after the locked region of a cancellation.
  function CancelWorld(c: Casing, w: World, r: Cancellation, delivered: bool): World {
    CancelRun(c, w, r.token, r.owner, r.name, r.runID, delivered).world
  }

  function PublicStep(c: Casing, s: State, l: PublicLabel): State {
    match l
    case FindIssuer(id, signed, appID, issuedAt, expiresAt, request) =>
      s.(mints := if id in s.mints || !signed || appID !in s.world.registry.apps then s.mints
                  else s.mints[id := Mint(appID, issuedAt, expiresAt, request, false)])
    case CheckTimes(id) =>
      s.(mints := if id in s.mints && !s.mints[id].accepted then CheckMint(s.mints, id, s.world.now) else s.mints)
    case MintToken(id, value) =>
      s.(world := if MayMint(s, id, value)
                  then CreateInstallationToken(c, s.world, s.mints[id].appID, s.mints[id].request, value).world
                      else s.world,
         mints := if MayMint(s, id, value) then s.mints - {id} else s.mints)
    case BeginCancel(id, raw, owner, name, runID) =>
      var token := Authenticate(s.world, raw);
      s.(cancels := if id in s.cancels || token.None? then s.cancels
                    else s.cancels[id := Cancellation(token.value, owner, name, runID)])
    case Cancel(id, delivered) =>
      s.(world := if id in s.cancels then CancelWorld(c, s.world, s.cancels[id], delivered) else s.world,
         cancels := s.cancels - {id})
    case _ => GetStep(c, s, l)
  }

  predicate IsPreparing(s: State, id: int) {
    id in s.executors && s.executors[id].Preparing?
  }

  // An index past the list would panic in the source; no reachable state has one.
  predicate MayStart(s: State, id: int) {
    IsPreparing(s, id) && s.executors[id].index < |s.world.ci.runs|
  }

  predicate MayFinish(s: State, id: int) {
    id in s.executors && s.executors[id].Running? && s.executors[id].index < |s.world.ci.runs|
  }

  predicate MayClaim(s: State, id: int, runID: int) {
    id !in s.executors && CheckClaim(s.world, runID) == 0
  }

  // The executor a successful claim starts, with what it captured.
  function Claimant(w: World, runID: int): Executor
    requires CheckClaim(w, runID) == 0
  {
    var k := FindRun(w.ci.runs, runID);
    var repo := w.ci.runs[k].repositoryID;
    Preparing(runID, k, w.registry.repositories[repo], w.registry.workflows[repo])
  }

  // The executor whose start region has run, its process started or not.
  function AfterStart(executors: map<int, Executor>, id: int, started: bool): map<int, Executor>
    requires id in executors
  {
    var e := executors[id];
    if started then executors[id := Running(e.runID, e.index, e.repository)] else executors - {id}
  }

  function Started(s: State, id: int, startOk: bool): Outcome
    requires MayStart(s, id)
  {
    StartRun(s.world, s.executors[id].repository, s.executors[id].index, id, startOk)
  }

  function RunStep(s: State, l: RunLabel): State {
    match l
    case ClaimRun(id, runID) =>
      s.(world := if MayClaim(s, id, runID) then Claim(s.world, runID).world else s.world,
         executors := if MayClaim(s, id, runID) then s.executors[id := Claimant(s.world, runID)] else s.executors)
    case Abandon(id) =>
      s.(world := if IsPreparing(s, id) then Release(s.world, s.executors[id].runID) else s.world,
         executors := if IsPreparing(s, id) then s.executors - {id} else s.executors)
    case StartProcess(id, startOk) =>
      s.(world := if MayStart(s, id) then Started(s, id, startOk).world else s.world,
         executors := if MayStart(s, id) then AfterStart(s.executors, id, Started(s, id, startOk).status == 0)
             else s.executors)
    case StopProcesses =>
      // Shutdown interrupts processes and records nothing; exits are nondeterministic anyway.
      s
    case FinishProcess(id, exitZero, logs) =>
      s.(world := if MayFinish(s, id)
                  then FinishRun(s.world, s.executors[id].repository, s.executors[id].index, exitZero, logs).world
                      else s.world,
         executors := if MayFinish(s, id) then s.executors - {id} else s.executors)
    case Transition(runID, wanted, conclusion) => s.(world := TransitionRun(s.world, runID, wanted, conclusion).world)
  }

  function PostOf(d: Delivery): Post {
    Post(d.event.guid, d.event.kind, d.event.body, d.app.webhookURL, d.app.webhookSecret, d.invalidSignature)
  }

  predicate IsFetched(s: State, id: int) {
    id in s.deliveries && s.deliveries[id].Fetched?
  }

  predicate IsAnswered(s: State, id: int) {
    id in s.deliveries && s.deliveries[id].Answered?
  }

  function DeliveryStep(s: State, l: DeliveryLabel): State {
    match l
    case Duplicate(guid) => s.(world := DuplicateEvent(s.world, guid).world)
    case Fetch(id, guid, invalidSignature) =>
      var d := ReadDelivery(s.world, guid, invalidSignature);
      s.(deliveries := if id in s.deliveries || d.None? then s.deliveries else s.deliveries[id := Fetched(d.value)])
    case Send(id, statusCode) =>
      s.(deliveries := if IsFetched(s, id)
         then s.deliveries[id := Answered(AttemptOf(s.deliveries[id].delivery, statusCode), |s.sent|)]
             else s.deliveries,
         sent := if IsFetched(s, id) then s.sent + [PostOf(s.deliveries[id].delivery)] else s.sent)
    case LogDelivery(id) =>
      s.(world := if IsAnswered(s, id) then LogAttempt(s.world, s.deliveries[id].attempt) else s.world,
         logged := if IsAnswered(s, id) then s.logged + [s.deliveries[id].post] else s.logged,
         deliveries := if IsAnswered(s, id) then s.deliveries - {id} else s.deliveries)
  }

  function WithPack(packs: map<int, Pack>, repo: int, pack: Option<Pack>): map<int, Pack> {
    if pack.Some? then packs[repo := pack.value] else packs - {repo}
  }

  function MovedRef(refs: Refs, ref: string, target: Option<string>): Refs {
    if target.Some? then refs[ref := target.value] else refs - {ref}
  }

  function HeldAfter(held: Refs, ref: string, target: Option<string>): Refs {
    if target.Some? then held[ref := target.value] else held
  }

  // One branch of one repository moves: created, updated or deleted. A push is assumed to name each branch
  // at most once.
  function MoveStep(s: State, repo: int, ref: string, target: Option<string>): State
    requires repo in s.packs && s.packs[repo].Serving?
  {
    var p := s.packs[repo];
    var moves := ref !in p.touched && (target.Some? ==> GitRef(ref, target.value));
    var held := if repo in s.lastHeld then s.lastHeld[repo] else map[];
    s.(packs := if moves then s.packs[repo := p.(touched := p.touched + {ref})] else s.packs,
       git := if moves then s.git[repo := MovedRef(GitOf(s, repo), ref, target)] else s.git,
       lastHeld := if moves then s.lastHeld[repo := HeldAfter(held, ref, target)] else s.lastHeld)
  }

  // The next phase of the handler that holds a receive lock; None gives the lock back.
  function NextPhase(w: World, refs: Refs, p: Pack, l: ReceiveLabel): Option<Pack> {
    match l
    case SnapshotBefore(_, ok) =>
      if !p.Locked? then Some(p) else if ok then Some(Serving(p.repository, p.token, Reading(refs), {}))
          else Some(Releasing(p.repository))
    case SnapshotAfter(_, ok) =>
      if !p.Serving? then Some(p)
      else if ok then Some(Observed(p.repository, p.token, p.before, Reading(refs))) else Some(Releasing(p.repository))
    case ListForRefresh(_) =>
      if p.Recording? then Some(Refreshing(p.repository, ListPulls(w, p.repository.id))) else Some(p)
    case ResolvePull(_, key) =>
      if p.Refreshing? && key in p.todo then
        var (baseRef, headRef) := p.todo[key];
        Some(Writing(p.repository, p.todo - {key}, key, baseRef, headRef, Lookup(refs, baseRef), Lookup(refs, headRef)))
      else Some(p)
    case WritePull(_) => if p.Writing? then Some(Refreshing(p.repository, p.todo)) else Some(p)
    case Unlock(_) => if p.Releasing? || (p.Refreshing? && p.todo == map[]) then None else Some(p)
    case _ => Some(p)
  }

  // The world after a step of that handler.
  function PackWorld(w: World, p: Pack, l: ReceiveLabel): World {
    if l.SnapshotAfter? && !l.ok && p.Serving? then RecordObservationError(w, p.repository.id)
    else if l.WritePull? && p.Writing? then RefreshPull(w, p.key, p.baseRef, p.headRef, p.baseSHA, p.headSHA)
    else w
  }

  function PackStep(s: State, repo: int, p: Pack, l: ReceiveLabel): State {
    s.(world := PackWorld(s.world, p, l), packs := WithPack(s.packs, repo, NextPhase(s.world, GitOf(s, repo), p, l)))
  }

  predicate MayLock(s: State, id: int) {
    id in s.waiting && s.waiting[id].repository.id !in s.packs
  }

  function LockStep(s: State, id: int): State {
    s.(waiting := if MayLock(s, id) then s.waiting - {id} else s.waiting,
       packs := if MayLock(s, id)
                then s.packs[s.waiting[id].repository.id := Locked(s.waiting[id].repository, s.waiting[id].token)]
                    else s.packs)
  }

  predicate IsObserved(s: State, repo: int) {
    repo in s.packs && s.packs[repo].Observed?
  }

  ghost function RecordedWorld(s: State, repo: int, ancestry: Ancestry): World
    requires IsObserved(s, repo)
  {
    RecordRefChanges(s.world, s.packs[repo].repository, s.packs[repo].token, s.packs[repo].before, s.packs[repo].after,
                     ancestry)
  }

  ghost function ReceiveStep(c: Casing, s: State, l: ReceiveLabel): State {
    match l
    case BeginPush(id, raw, owner, name) =>
      var who := AuthorizePush(c, s.world, raw, owner, name);
      s.(waiting := if id in s.waiting || who.None? then s.waiting
         else s.waiting[id := Waiter(who.value.0, who.value.1)])
    case Lock(id) => LockStep(s, id)
    case RecordPush(repo, ancestry) =>
      s.(world := if IsObserved(s, repo) then RecordedWorld(s, repo, ancestry) else s.world,
         packs := if IsObserved(s, repo) then s.packs[repo := Recording(s.packs[repo].repository)] else s.packs)
    case MoveRef(repo, ref, target) =>
      if repo in s.packs && s.packs[repo].Serving? then MoveStep(s, repo, ref, target) else s
    case _ => if l.repo in s.packs then PackStep(s, l.repo, s.packs[l.repo], l) else s
  }

  // createPullRequest keeps the world's lock while Git moves refs; steps that need the lock wait.
  predicate NeedsLock(l: Label) {
    match l
    case OnReceive(r) =>
      !(r.Lock? || r.SnapshotBefore? || r.MoveRef? || (r.SnapshotAfter? && r.ok) || r.ResolvePull? || r.Unlock?)
    case OnDelivery(d) => !d.Send?
    case OnControl(k) => !k.ClosePull?
    case OnRun(r) => !r.StopProcesses?
    case OnPublic(p) => !(p.ResolveBase? || p.ResolveHead?)
  }

  ghost function Step(c: Casing, s: State, l: Label): State {
    if s.drafting.Some? && NeedsLock(l) then s
    else
      match l
      case OnControl(k) => ControlStep(c, s, k)
      case OnPublic(p) => PublicStep(c, s, p)
      case OnRun(r) => RunStep(s, r)
      case OnDelivery(d) => DeliveryStep(s, d)
      case OnReceive(r) => ReceiveStep(c, s, r)
  }

  ghost function Execute(c: Casing, s: State, labels: seq<Label>): State {
    if labels == [] then s else Step(c, Execute(c, s, labels[..|labels| - 1]), labels[|labels| - 1])
  }
}
