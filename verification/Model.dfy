/**
 The durable state of one Agent-Team Run, as values.

 A Turn's identity is its position in `turns` (turn-0001 is turn 0), an event's
 identity is its type together with its journal sequence number, a process is
 named by the pair of its pid and start id (one abstract `Pid`), and a frozen
 workspace snapshot is named by its state hash (one abstract `Tree`).
 */
module Model {
  import opened Options

  datatype Result<+T> = Ok(value: T) | Err(why: Refusal)

  // One constructor per error the modelled code raises.
  datatype Refusal =
    | UnknownRole | BadKickoff | NoKickoff | BrokenChain | ClockBackward
    | NotCancellable | ManyClaims | BadCancel
    | NotResumable | RecoveryGate | BadResume | TurnLimit
    | NoTokenOwner | TurnSpent | WrongSender | WrongInput
    | BadHandoff | BadContinuation | BadSystemHandoff
    | BadComplete | BadBlock | BadLimit | PastDeadline
    | BadTurns | BadRuntime | BadLink | BadSession
    | BadSave | BadProcessChain | SessionConflict | NotAllowed | Unavailable

  type RoleId = string
  type Pid = nat
  type Ref = string
  type Tree = nat
  type Nonce = nat

  datatype Binding = External | Origin
  datatype SessionPolicy = Fresh | Resumable
  datatype Role = Role(binding: Binding, policy: SessionPolicy)

  datatype Team = Team(
    roles: map<RoleId, Role>,
    initialRole: RoleId,
    maxTurns: nat,
    wallSeconds: nat,
    edges: Option<map<RoleId, set<RoleId>>>,
    readOnly: set<RoleId>)
  {
    predicate AllowsHandoff(source: RoleId, target: RoleId) {
      edges.None? || (source in edges.value && target in edges.value[source])
    }

    // The part of the team parser the state machine relies on.
    predicate Valid() {
      initialRole in roles && maxTurns >= 1 && wallSeconds >= 1
    }
  }

  datatype EventKind = KickoffKind | HandoffKind | CompleteKind | BlockKind | ResumeKind | CancelKind
  datatype EventId = EventId(kind: EventKind, n: nat)

  // A Handoff is selected by the role, an automatic continuation after an
  // output limit, or the system Handoff after a failed candidate activation.
  datatype HandoffWhy = Selected | Continuation | CandidateFailed
  datatype BlockReason = Agent | Limit | ProfileChanged | Recovery | StartFailure | NoAction | Permission
  datatype LimitReason = Deadline | MaxTurns

  datatype Body =
    | Kickoff
    | Handoff(why: HandoffWhy)
    | Complete
    | Block(reason: BlockReason, limit: Option<LimitReason>)
    | Resume
    | Cancel
  {
    function Kind(): EventKind {
      match this
      case Kickoff => KickoffKind
      case Handoff(_) => HandoffKind
      case Complete => CompleteKind
      case Block(_, _) => BlockKind
      case Resume => ResumeKind
      case Cancel => CancelKind
    }
  }

  // `created` is in whole milliseconds: the precision of the stored timestamp.
  datatype Event = Event(
    id: EventId,
    prev: Option<EventId>,
    body: Body,
    from: Option<RoleId>,
    to: Option<RoleId>,
    turn: Option<nat>,
    created: int)

  datatype Executor = ByWorker | ByOrigin
  datatype Phase = Starting | Running | Exited | Finalized | RecoveryRequired
  datatype Outcome = Success | Failed | Cancelled | Stalled
  datatype Termination =
    | NormalExit | CancelledExit | DeadlineExit | SignalExit | CrashExit | ActionExit | OutputLimit | UnknownExit

  datatype Evidence = Evidence(started: bool, completed: bool, permission: bool, ref: Option<Ref>)
  const NoEvidence := Evidence(false, false, false, None)

  // What is known about how the process group ended.
  datatype Ending = Ending(exitCode: Option<int>, kind: Option<Termination>, quiescent: Option<bool>)
  const NotEnded := Ending(None, None, None)

  datatype Runtime = Runtime(
    turn: nat,
    business: Option<nat>,
    input: EventId,
    role: Option<RoleId>,
    executor: Executor,
    generation: Option<nat>,
    before: Option<Tree>,
    claim: Option<nat>,
    phase: Phase,
    outcome: Option<Outcome>,
    terminal: Option<EventId>,
    nonce: Option<Nonce>,
    supervisor: Option<Pid>,
    runner: Option<Pid>,
    evidence: Evidence,
    ending: Ending,
    after: Option<Tree>)

  datatype SupState = SupStarting | SupWaiting | SupRunning | SupStopping | SupFinished
  datatype Snapshot = Snapshot(
    state: SupState,
    pid: Pid,
    runner: Option<Pid>,
    evidence: Evidence,
    exitCode: Option<int>,
    kind: Option<Termination>,
    quiescent: bool)

  datatype Authorization = Authorization(supervisor: Pid, runner: Pid)

  datatype Action = ToRole(target: RoleId) | ToComplete | ToBlock

  // runtime.json, process/supervisor.json, process/runner.json,
  // process/launch-authorized.json, workspace-facts-after.json, outbox.json.
  datatype Turn = Turn(
    rt: Runtime,
    sup: Option<Snapshot>,
    runnerFile: Option<Pid>,
    auth: Option<Authorization>,
    afterFile: Option<Tree>,
    outbox: Option<Action>)

  datatype Session = Session(
    generation: nat,
    ref: Option<Ref>,         // None: the Session is unavailable
    reason: Option<string>,   // why it is unavailable
    created: nat,
    updated: nat)

  datatype Status = UnstartedRun | RunningRun | BlockedRun | CompletedRun | CancelledRun

  // `clock` is in microseconds. `dead` holds every process (group) that no
  // longer exists and `passed` every (turn, Runner) whose authorization gate
  // has let it execute the Harness.
  datatype Store = Store(
    team: Team,
    events: seq<Event>,
    turns: seq<Turn>,
    sessions: map<RoleId, Session>,
    clock: int,
    dead: set<Pid>,
    passed: set<(nat, Pid)>)

  // A timestamp keeps whole milliseconds of the clock.
  function Stamp(clock: int): int { clock / 1000 }

  function DeadlineOf(team: Team, kickoff: Event): int {
    kickoff.created + team.wallSeconds * 1000
  }
}
