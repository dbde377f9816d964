// The three-state attribute values of the Terraform plugin protocol
// (tftypes.Value) as the resource engines see them, their conversions to Go
// values, and the diagnostics and replies the engines return.
module TfValues {
  import opened Common

  /** The attribute names of the provider's schemas. The Go code keys its
      attribute maps by these names as strings; as an enumeration, two
      distinct names are plainly distinct. */
  datatype AttrName =
    // the vault cluster and its tcp_listener block
    | Id | Name | Region | DefaultLeaseTtl | MaxLeaseTtl | TcpListenerBlock | Address | ClusterAddress
    // the Terraform workspace and its vcs_repo block
    | AgentPoolId | AllowDestroyPlan | AutoApply | Description | ExecutionMode | FileTriggersEnabled
    | QueueAllRuns | SpeculativeEnabled | TerraformVersion | TriggerPrefixes | WorkingDirectory
    | VcsRepoBlock | OauthTokenId | Branch | IngressSubmodules | Identifier
    // the access policy and its policy_data object
    | Type | PolicyData | WorkspaceId | ClusterId | Plan | Apply | OverridePolicies
    | Key | Read | Write | Delete | SubmitJobs | ReadJobStatus | CancelJobs
    // the provider configuration
    | Username | Password

  /** An attribute value: null, not yet known, or a known string, bool, list
      or object. Only the shapes the engines inspect are kept; type tags
      are left out. */
  datatype Val =
    | Null
    | Unknown
    | Str(s: string)
    | Bool(b: bool)
    | List(items: seq<Val>)
    | Obj(attrs: map<AttrName, Val>)

  /** IsKnown: only the top level is inspected. */
  predicate IsKnown(v: Val) {
    !v.Unknown?
  }

  /** The "known and not null" test the engines use before reading an
      optional attribute. */
  predicate KnownNonNull(v: Val) {
    !v.Unknown? && !v.Null?
  }

  /** Indexing a Go map of values: a missing key yields the zero value, which
      reports itself as null. */
  function Get(m: map<AttrName, Val>, k: AttrName): Val {
    if k in m then m[k] else Null
  }

  /** No Unknown anywhere in the value, at any depth. */
  predicate WhollyKnown(v: Val)
    decreases v
  {
    match v
    case Unknown => false
    case List(items) => forall i :: 0 <= i < |items| ==> WhollyKnown(items[i])
    case Obj(attrs) => forall k :: k in attrs ==> WhollyKnown(attrs[k])
    case _ => true
  }

  /** Conversion to a Go string: null gives "", an unknown or non-string value
      is the one conversion error (None). */
  function AsString(v: Val): Option<string> {
    match v
    case Null => Some("")
    case Str(s) => Some(s)
    case _ => None
  }

  function AsBool(v: Val): Option<bool> {
    match v
    case Null => Some(false)
    case Bool(b) => Some(b)
    case _ => None
  }

  /** Conversion to map[string]tftypes.Value: null gives the empty map. */
  function AsMap(v: Val): Option<map<AttrName, Val>> {
    match v
    case Null => Some(map[])
    case Obj(attrs) => Some(attrs)
    case _ => None
  }

  /** Conversion to []tftypes.Value: null gives the empty list. */
  function AsList(v: Val): Option<seq<Val>> {
    match v
    case Null => Some([])
    case List(items) => Some(items)
    case _ => None
  }

  /** The planning rule for a computed attribute: null becomes Unknown. */
  function NullToUnknown(v: Val): Val {
    if v.Null? then Unknown else v
  }

  /** One step of an attribute path. */
  datatype Step = Attr(name: AttrName) | Index(pos: int)

  /** The diagnostic summaries the engines report; message details are not
      modelled. */
  datatype Summary =
    | UnexpectedConfigFormat
    | UnexpectedStateFormat
    | UnexpectedPlannedStateFormat
    | UnexpectedPriorStateFormat
    | UnexpectedPolicyDataFormat
    | UnexpectedStateVersion
    | UnexpectedProviderConfig
    | ErrorCreatingClient
    | ErrorRetrievingRegions
    | UnknownRegion
    | InvalidExecutionMode
    | ErrorRetrieving
    | ErrorDeleting
    | ErrorUpdating
    | ErrorCreating
    | ErrorParsingPolicyData
    | UnknownResource
    | UnknownDataSource

  /** An error diagnostic: its summary and the attribute path it points at
      (empty when it names no attribute). */
  datatype Diag = Diag(summary: Summary, path: seq<Step>)

  /** The answer of a state-producing RPC: a new state, or one diagnostic. */
  datatype Reply = Done(state: Val) | Fail(diag: Diag)

  /** The remote call an engine made, if any. */
  datatype Call<R> = NoCall | GetCall(id: string) | DeleteCall(id: string) | CreateCall(rec: R) | UpdateCall(rec: R)

  /** The optional-attribute rule shared by the Apply request builders: a
      value is converted only when known and non-null, otherwise the Go zero
      value is sent. */
  function StringOrZero(v: Val): Option<string> {
    if KnownNonNull(v) then AsString(v) else Some("")
  }

  /** The optional-attribute rule for a bool: converted only when known and
      non-null, otherwise false. */
  function BoolOrZero(v: Val): Option<bool> {
    if KnownNonNull(v) then AsBool(v) else Some(false)
  }

  /** A Go *bool as an attribute value: nil is null. */
  function OptBool(b: Option<bool>): Val {
    if b.None? then Null else Bool(b.value)
  }

  /** A conversion step of a request builder: a failed conversion becomes a
      diagnostic at the given path. */
  function Converted<T>(o: Option<T>, summary: Summary, path: seq<Step>): Result<T, Diag> {
    if o.None? then Err(Diag(summary, path)) else Ok(o.value)
  }

  /** The merge-back rule for an optional attribute: the plan's value when
      known and non-null, otherwise the remote's. */
  function PlanOr(planned: Val, remote: Val): Val {
    if KnownNonNull(planned) then planned else remote
  }

  /** UpgradeResourceState, shared by every engine: only schema version 1
      is accepted, and its raw state is returned as it is. */
  function UpgradeResourceState(version: int, raw: Val): (r: Reply)
    ensures r.Done? <==> version == 1
    ensures r.Done? ==> r.state == raw
    ensures r.Fail? ==> r.diag == Diag(UnexpectedStateVersion, [])
  {
    if version == 1 then Done(raw) else Fail(Diag(UnexpectedStateVersion, []))
  }

  /** The ID Apply reads from a non-null prior state before a delete or an
      update: the prior state must be an object and its `id` a string (a
      missing or null `id` reads as ""). */
  function PriorId(prior: Val): (r: Result<string, Diag>)
    ensures r.Err? ==> r.error.summary == UnexpectedPriorStateFormat
    ensures r.Ok? ==> prior.Null? || (prior.Obj? && AsString(Get(prior.attrs, Id)) == Some(r.value))
  {
    match AsMap(prior)
    case None => Err(Diag(UnexpectedPriorStateFormat, []))
    case Some(m) =>
      match AsString(Get(m, Id))
      case None => Err(Diag(UnexpectedPriorStateFormat, [Attr(Id)]))
      case Some(id) => Ok(id)
  }
}
