/** The records of the system: jobs, dead letters, apps, deployments, events. */
module Domain {

  datatype Option<+T> = None | Some(value: T)

  /** Instants and durations, in nanoseconds. The instant 0 is the zero time;
      every clock reading is positive. */
  type Time = int

  const MILLISECOND: Time := 1_000_000
  const SECOND: Time := 1_000_000_000
  const MINUTE: Time := 60_000_000_000

  /** How many items a call with a limit may take: a limit that is not positive means the default. */
  const DEFAULT_LIMIT: nat := 100

  function EffectiveLimit(limit: int): nat {
    if limit <= 0 then DEFAULT_LIMIT else limit
  }

  // ----- Jobs

  datatype JobKind = DeployCreate | DeployDelete | DeploySync | OtherKind(name: string)

  datatype Job = Job(
    id: string, kind: JobKind, tenantId: string, appId: string, deploymentId: string,
    attempts: int, createdAt: Time, availableAt: Time, leasedAt: Time, lastError: string)

  datatype DeadLetter = DeadLetter(
    id: string, job: Job, reason: string, failedAt: Time, finalAttempt: int)

  /** What a job is about; no queue operation changes it. */
  datatype JobName = JobName(kind: JobKind, tenantId: string, appId: string, deploymentId: string)

  function NameOf(job: Job): JobName {
    JobName(job.kind, job.tenantId, job.appId, job.deploymentId)
  }

  /** The job the scheduler builds for a name: no attempt made, available at once. */
  function NewJob(id: string, name: JobName, now: Time): Job {
    Job(id, name.kind, name.tenantId, name.appId, name.deploymentId, 0, now, 0, 0, "")
  }

  // ----- Apps and deployments

  datatype Provider = Provider(
    name: string, model: string, baseUrl: string, priority: int, timeoutSeconds: int)

  datatype ReliabilityPolicy = ReliabilityPolicy(
    autoRepair: bool, maxRepairAttempts: int, healthCheckPath: string,
    healthCheckTimeoutSeconds: int, rollbackOnFailedHealthCheck: bool,
    fallbackProviders: seq<Provider>)

  datatype OpenClawConfig = OpenClawConfig(
    enabled: bool, gatewayBindAddress: string, gatewayPort: int, gatewayToken: string,
    providerApiKeys: map<string, string>, extraEnv: map<string, string>,
    existingSecretName: string)

  datatype AppConfig = AppConfig(
    image: string, env: map<string, string>, openClaw: Option<OpenClawConfig>,
    reliability: ReliabilityPolicy)

  datatype App = App(
    id: string, tenantId: string, slug: string, currentDeploymentId: string, config: AppConfig)

  datatype Status =
    | Queued | Provisioning | Running | Degraded | Recovering
    | Failed | Cancelled | Deleting | Deleted

  datatype BackendRef = BackendRef(
    namespace: string, deployment: string, service: string, ingressName: string)

  const NO_REF := BackendRef("", "", "", "")

  /** A reference that names a backend object. */
  predicate Named(ref: BackendRef) {
    ref.namespace != "" && ref.deployment != ""
  }

  datatype Deployment = Deployment(
    id: string, tenantId: string, appId: string, version: int, snapshot: AppConfig,
    status: Status, statusReason: string, backendRef: BackendRef, requestedBy: string,
    repairAttempts: int, startedAt: Option<Time>, finishedAt: Option<Time>,
    createdAt: Time, updatedAt: Time)

  // ----- Deployment events

  /** The event types: a status name ("queued", "running", ...), or one of the two
      queueing events that are not status names. */
  datatype EventKind = StatusEvent(status: Status) | RetryQueued | AutoRepairQueued

  datatype Event = Event(
    deploymentId: string, tenantId: string, kind: EventKind, message: string, createdAt: Time)

  // ----- Outcomes

  datatype Error = NotFound | Validation | Conflict | BackendError(message: string)

  datatype Result<+T> = Ok(value: T) | Err(error: Error)
}
