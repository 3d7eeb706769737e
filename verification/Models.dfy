/** The values shared by every part of the model (internal/models/models.go). */
module Models {
  datatype Option<+T> = None | Some(value: T)

  /** Identifies an application across clusters. */
  datatype AppKey = AppKey(name: string)

  datatype Cluster = Cluster(contextName: string, server: string)

  datatype SyncResource = SyncResource(group: string, kind: string, name: string, namespace: string)

  datatype ResourceStatus = ResourceStatus(resource: SyncResource, syncStatus: string, healthStatus: string)

  datatype Application = Application(
    key: AppKey,
    namespace: string,
    syncStatus: string,
    healthStatus: string,
    operationPhase: string,
    operationMessage: string,
    resources: seq<SyncResource>,
    resourceStatuses: seq<ResourceStatus>)

  /** What indexing a map of applications yields for a missing key. */
  const ZERO_APPLICATION := Application(AppKey(""), "", "", "", "", "", [], [])

  type Inventory = map<AppKey, map<string, Application>>

  /** The entry of `a` in cluster `c`, or the zero application. */
  function MetaOf(inv: Inventory, a: AppKey, c: string): Application {
    if a in inv && c in inv[a] then inv[a][c] else ZERO_APPLICATION
  }

  datatype Action = ActionSync | ActionRefresh | ActionHardRefresh | ActionOther(name: string)

  datatype RunOptions = RunOptions(
    preRefresh: bool,
    preHardRefresh: bool,
    prune: bool,
    dryRun: bool,
    applyOnly: bool,
    force: bool,
    wait: bool,
    waitHealthy: bool,
    waitTimeout: int,
    pollInterval: int,
    resources: seq<SyncResource>)

  datatype TaskStatus = TaskPending | TaskRunning | TaskSuccess | TaskFailed | TaskCancelled

  datatype Target = Target(clusterContext: string, app: AppKey)

  /** Errors, kept apart by what the code can tell about them. An `ApiError` is an arbitrary
      answer of the Argo CD client: its text, and whether it wraps a context error. */
  datatype Err =
    | ApiError(wrapsContext: bool, text: string)
    | ContextError
    | UnknownCluster(context: string)
    | UnsupportedAction(action: Action)
    | PreRefreshFailed(hard: bool, cause: Err)
    | OperationFailed(target: Target, phase: string, message: string)
    | WaitTimedOut(target: Target, timeout: int, last: Message)

  /** errors.Is(err, context.Canceled) || errors.Is(err, context.DeadlineExceeded) */
  predicate IsContextError(e: Err) {
    match e
    case ApiError(wraps, _) => wraps
    case ContextError => true
    case PreRefreshFailed(_, cause) => IsContextError(cause)
    case _ => false
  }

  /** The message of a progress event, before it is rendered as text (`WaitMessage.Render`). */
  datatype Message =
    | NoMessage
    | Submitted
    | Selection(selected: nat, filtered: nat)
    | Skipping
    | AlreadyInProgress
    | WaitReport(phase: string, sync: string, health: string, resources: nat)

  datatype ProgressEvent = ProgressEvent(
    target: Target,
    phase: TaskStatus,
    action: Action,
    message: Message,
    err: Option<Err>)

  datatype Result = Result(target: Target, action: Action, status: TaskStatus, err: Option<Err>)
}
