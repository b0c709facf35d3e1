/** The state the operator works on: virtual machines with their annotations, the keys on the
    Salt master, bootstrap Secrets, and everything a single reconcile is told from outside. */
module Model {
  import opened Text
  import opened Matcher

  // Durations and instants are nanoseconds.
  const SECOND: int := 1_000_000_000
  const MINUTE: int := 60 * SECOND
  const POST_ACCEPT_DELAY: int := 30 * SECOND
  const RETRY_BACKOFF: int := 60 * SECOND
  const MAX_BOOTSTRAP: int := 10 * MINUTE

  const CLEARED: string := "cleared"

  /** RFC 3339 timestamps are written in whole seconds. */
  function Stamp(now: int): (t: int)
    ensures t <= now < t + SECOND
  {
    now - now % SECOND
  }

  // ---------------------------------------------------------------- virtual machines

  datatype KeyStatus = NoKey | Preseeded | Accepted | KeyFailed | KeyDeleted | DeleteFailed

  datatype ChainStep = PingStep | RefreshStep | DispatchStep | HighstateStep

  datatype SaltStatus = Unstarted | Pinged | PillarRefreshed | HighstateDispatched | Ready | Failed(step: ChainStep)

  datatype Flag = Unset | True | False

  datatype Highstate = NoHighstate | InProgress | Succeeded | HighstateFailed

  /** The annotations only the operator writes. An empty string is an absent annotation. */
  datatype Marks = Marks(
    keyStatus: KeyStatus,
    minionId: string,
    how: Method,
    acceptedAt: Option<int>,
    keyCleared: bool,
    saltStatus: SaltStatus,
    ready: Flag,
    jid: string,
    highstate: Highstate,
    highstateTime: Option<int>,
    failedStates: seq<string>,
    rolesHash: string,
    retryHandled: string,
    bulkHandled: string)

  const NO_MARKS: Marks :=
    Marks(NoKey, "", NoMethod, None, false, Unstarted, Unset, "", NoHighstate, None, [], "", "", "")

  /** What vSphere reports: powered on, primary address, creation time, guest signal. */
  datatype Seen = Seen(running: bool, ip: string, createdAt: Option<int>, guestSignalled: bool)

  /** The part of a VM the operator only reads. `tenant` holds every annotation it does not write. */
  datatype Object = Object(
    uid: string,
    name: string,
    tenant: map<string, string>,
    seen: Seen,
    deleting: bool,
    otherFinalizers: bool)

  datatype Vm = Vm(obj: Object, marks: Marks, finalizer: bool)

  function Get(m: map<string, string>, k: string): string {
    if k in m then m[k] else ""
  }

  const MANAGED: string := "salt.vcf.io/managed"
  const RETRY_REQUEST: string := "salt.vcf.io/retry-request"

  predicate Managed(obj: Object) {
    Get(obj.tenant, MANAGED) == "true"
  }

  // ---------------------------------------------------------------- configuration

  datatype Config = Config(
    labelled: bool,             // created by the operator's own enrolment
    ready: bool,
    preseed: bool,
    acceptTimeout: int,
    requeue: int,
    retryToken: string,
    enforcement: Option<int>)   // None when empty or not a duration

  // ---------------------------------------------------------------- master and Secrets

  datatype KeyPair = KeyPair(priv: string, pub: string)

  datatype KeyState = PendingKey | AcceptedKey | RejectedKey

  /** A minion ID has at most one key besides denied ones, so it is never both pending and accepted. */
  datatype Key = Key(state: KeyState, pair: KeyPair)

  type Keys = map<string, Key>

  datatype Secret = Secret(owner: string, pem: string, pub: string, masterPub: string, id: string)

  // ---------------------------------------------------------------- one reconcile

  datatype Answer = Yes | No | Error

  datatype Poll = PollError | NotDone | Done(ok: bool, failed: seq<string>)

  /** The API writes of one reconcile; `lost` in the input names those that fail. */
  datatype Write = ClearSecret | ClearMark | BootstrapSecret | Finalizer | Status | BulkMark

  /** Everything one reconcile learns from outside. None stands for a call that returned an error.
      `foreignKey` is a key that reaches the master between the state check and the generation. */
  datatype Input = Input(
    now: int,
    configs: Option<seq<Config>>,
    selected: bool,
    client: bool,
    pending: Option<seq<string>>,
    acceptOk: bool,
    fleet: Option<seq<Vm>>,
    statesOk: bool,
    foreignKey: Option<KeyPair>,
    generated: Option<KeyPair>,
    masterPub: Option<string>,
    ping: Answer,
    refresh: Answer,
    jid: Option<string>,
    poll: Poll,
    deleteOk: bool,
    lost: set<Write>)

  /** What a reconcile did: its calls to Salt, and the two moments a chain begins again. */
  datatype Event =
    | ListedPending
    | AcceptedFor(id: string, ok: bool)
    | CheckedStates(id: string)
    | GeneratedFor(id: string, pair: Option<KeyPair>)
    | FetchedMasterKey
    | DeletedKey(id: string, ok: bool)
    | Pings(id: string, answer: Answer)
    | Refreshes(id: string, answer: Answer, tenant: map<string, string>)
    | Dispatches(id: string, jid: Option<string>, day2: bool, tenant: map<string, string>)   // None is a failure
    | Polls(id: string, job: string, poll: Poll)
    | ChainReset
    | RunStarts(scheduled: Option<int>)   // the interval, when only the schedule asked for the run

  /** What a reconcile of one VM may change. */
  datatype Scene = Scene(marks: Marks, finalizer: bool, keys: Keys, secret: Option<Secret>, events: seq<Event>)

  /** Failure is an error return; Requeue(0) is a return without a requeue. */
  datatype Outcome = Failure | Requeue(after: int)

  datatype Result = Result(scene: Scene, out: Outcome)
}
