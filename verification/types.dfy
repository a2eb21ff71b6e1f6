/** The entities the operator reads and writes: CustomHostname resources, Zones,
    Cloudflare records, and the operator's own configuration. */
module Types {

  datatype Option<+T> = None | Some(value: T)

  // A Cloudflare identifier; 0 stands for the empty string of an unset status.id.
  type Id = nat

  // A Kubernetes UID: one per incarnation of a resource, never reused.
  type Uid = nat

  // Whole seconds; ZERO_TIME is the zero value of Go's time.Time.
  type Time = int
  const ZERO_TIME: Time := 0

  const ACTIVE := "active"
  const METHOD_HTTP := "http"
  const TYPE_DV := "dv"

  // InheritX is the empty field; UnknownX is a value that bypassed admission.
  datatype ManagementPolicy = InheritManagement | Manage | Create | Observe | UnknownManagement
  datatype DeletePolicy = InheritDelete | Always | OwnOnly | Never | UnknownDelete

  // The four managed SSL settings. "" means unset in a spec, not sent in a request.
  datatype SSLConfig = SSLConfig(
    certificateAuthority: string,
    minTLSVersion: string,
    dcvMethod: string,
    validationType: string)

  datatype ValidationRecord = ValidationRecord(
    txtName: string, txtValue: string, httpURL: string, httpBody: string, emails: seq<string>)

  datatype ValidationError = ValidationError(message: string)

  // The ssl object of a Cloudflare response.
  datatype CFSSL = CFSSL(
    status: string,
    config: SSLConfig,
    id: string,
    issuer: string,
    serialNumber: string,
    bundleMethod: string,
    wildcard: bool,
    hosts: seq<string>,
    uploadedOn: Time,
    expiresOn: Time,
    validationRecords: seq<ValidationRecord>,
    validationErrors: seq<ValidationError>)

  // status.ssl of a CustomHostname.
  datatype SSLStatus = SSLStatus(
    status: string,
    config: SSLConfig,
    id: string,
    issuer: string,
    serialNumber: string,
    bundleMethod: string,
    wildcard: bool,
    hosts: seq<string>,
    uploadedOn: Option<Time>,
    expiresOn: Option<Time>,
    validationRecords: seq<ValidationRecord>,
    validationErrors: seq<string>)

  // A Cloudflare custom hostname.
  datatype Record = Record(
    id: Id,
    zone: string,
    hostname: string,
    status: string,
    originServer: string,
    originSNI: string,
    ssl: CFSSL)

  datatype ZoneRef = ZoneRef(name: string, namespace: string)

  datatype Spec = Spec(
    hostname: string,
    originServer: string,
    originSNI: Option<string>,
    zoneRef: ZoneRef,
    ssl: Option<SSLConfig>,
    managementPolicy: ManagementPolicy,
    deletePolicy: DeletePolicy)

  datatype Reason =
    | Ready | SSLPending | HostnameConflict | WaitingForExternal | DryRun
    | ZoneError | OriginNotInZone | LookupFailed | CreateFailed | UpdateFailed

  // The Ready condition, the only condition the operator sets on a CustomHostname.
  datatype Condition = Condition(isTrue: bool, reason: Reason, observedGeneration: nat)

  datatype Status = Status(
    id: Id,
    hostnameStatus: string,
    ssl: Option<SSLStatus>,
    createCount: nat,
    consecutiveErrors: nat,
    sslProvisioningStartedAt: Option<Time>,
    ready: Option<Condition>)

  const EMPTY_STATUS := Status(0, "", None, 0, 0, None, None)

  // A CustomHostname as the API server stores it. otherFinalizers: some other
  // controller also holds the object.
  datatype Resource = Resource(
    spec: Spec,
    finalizer: bool,
    otherFinalizers: bool,
    deleting: bool,
    generation: nat,
    status: Status)

  // A Zone with its Cloudflare zone id, its resolved domain ("" until initialized)
  // and whether its API token can be read.
  datatype Zone = Zone(id: string, domain: string, credentials: bool)

  datatype Config = Config(
    operatorNamespace: string,
    managementPolicy: ManagementPolicy,
    deletePolicy: DeletePolicy,
    dryRun: bool,
    sslDefaults: SSLConfig,
    maxRetries: nat)

  // One status.ssl field compared by the coordinator.
  datatype SSLField =
    | CAField | MinTLSField | MethodField | TypeField | StatusField | IdField | IssuerField
    | SerialNumberField | BundleMethodField | WildcardField | UploadedOnField | ExpiresOnField
}
