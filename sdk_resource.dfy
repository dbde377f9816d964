// The SDK side of the provider (provider/internal/provider/*.go outside the
// plugin_* engines): the schema.ResourceData the SDK hands each CRUD
// function, and the shape every Create/Read/Update/Delete there shares.
module SdkResource {
  import opened Common
  import opened ClientResponse
  import TfValues

  /** The attribute names of the SDK schemas, nested block attributes
      included. A name that occurs in several schemas ("name", "http",
      "server", ...) is one constructor. `VscRepo` is the key "vsc_repo",
      which no schema declares. */
  datatype Field =
    // vault cluster
    | Name | Region | DefaultLeaseTtl | MaxLeaseTtl | TcpListenerBlock | Address | ClusterAddress
    // consul cluster
    | BindAddr | Addresses | Dns | Http | Https | Grpc | Ports | SerfLan | SerfWan | Server
    | SidecarMinPort | SidecarMaxPort | ExposeMinPort | ExposeMaxPort
    // nomad cluster
    | Datacenter | Advertise | Rpc | Serf | ServerJoinBlock | RetryJoin | StartJoin | RetryMax | RetryInterval
    // terraform workspace
    | AgentPoolId | AllowDestroyPlan | AutoApply | Description | ExecutionMode | FileTriggersEnabled
    | QueueAllRuns | SpeculativeEnabled | TerraformVersion | TriggerPrefixes | WorkingDirectory
    | VcsRepoBlock | VscRepo | OauthTokenId | Branch | IngressSubmodules | Identifier
    // access policy resource and data sources
    | Type | PolicyData | ClusterId | WorkspaceId | Key | Read | Write | Delete
    | Plan | Apply | OverridePolicies | SubmitJobs | ReadJobStatus | CancelJobs | JsonText

  /** A value held in the SDK's state: a string, bool or int, a list (a
      block list is a list of blocks), a nested block, or a nil pointer
      stored as it is. */
  datatype Data =
    | Text(s: string)
    | Flag(b: bool)
    | Num(n: int)
    | Items(items: seq<Data>)
    | Block(fields: map<Field, Data>)
    | NilPointer

  // ---- d.Get with its type assertion: a missing or differently typed
  // ---- value reads as the Go zero value of the schema type.

  function StringAt(m: map<Field, Data>, k: Field): string {
    if k in m && m[k].Text? then m[k].s else ""
  }

  function BoolAt(m: map<Field, Data>, k: Field): bool {
    if k in m && m[k].Flag? then m[k].b else false
  }

  function IntAt(m: map<Field, Data>, k: Field): int {
    if k in m && m[k].Num? then m[k].n else 0
  }

  function ListAt(m: map<Field, Data>, k: Field): seq<Data> {
    if k in m && m[k].Items? then m[k].items else []
  }

  /** The first element of a block list as a map (`list[0].(map[string]interface{})`). */
  function FirstBlock(items: seq<Data>): map<Field, Data>
    requires |items| > 0
  {
    if items[0].Block? then items[0].fields else map[]
  }

  /** A list element read as a string (`rj.(string)`). */
  function StringOf(v: Data): string {
    if v.Text? then v.s else ""
  }

  /** A []string written back to the state: nil is an empty list. */
  function TextList(o: Option<seq<string>>): (r: Data)
    ensures r.Items? && |r.items| == (if o.None? then 0 else |o.value|)
  {
    Items(if o.None? then [] else seq(|o.value|, i requires 0 <= i < |o.value| => Text(o.value[i])))
  }

  /** The strings of a list, element by element (the Go range-and-append loops). */
  function Strings(items: seq<Data>): seq<string> {
    if items == [] then [] else [StringOf(items[0])] + Strings(items[1..])
  }

  lemma {:induction false} StringsElementwise(items: seq<Data>)
    ensures |Strings(items)| == |items|
    ensures forall i :: 0 <= i < |items| ==> Strings(items)[i] == StringOf(items[i])
  {
    if items != [] {
      StringsElementwise(items[1..]);
    }
  }

  /** Reading back a list written from strings gives the same strings. */
  lemma TextListReadsBack(xs: seq<string>)
    ensures Strings(TextList(Some(xs)).items) == xs
  {
    var items := TextList(Some(xs)).items;
    StringsElementwise(items);
  }

  /** The range-and-append loop itself. */
  method CollectStrings(items: seq<Data>) returns (r: seq<string>)
    ensures r == Strings(items)
  {
    StringsElementwise(items);
    r := [];
    for i := 0 to |items|
      invariant r == Strings(items)[..i]
    {
      r := r + [StringOf(items[i])];
    }
  }

  /** The valid-options loop of a ValidateDiagFunc: it stops at the first
      option equal to the value. */
  method Listed(options: seq<string>, s: string) returns (found: bool)
    ensures found <==> s in options
  {
    for i := 0 to |options|
      invariant s !in options[..i]
    {
      if options[i] == s {
        return true;
      }
    }
    return false;
  }

  /** The diagnostics the SDK functions return; message details are not
      modelled. `ClientNotBuilt` is the error of dadcorp.NewClient. */
  datatype Failure =
    | ClientNotBuilt
    | CallFailed(error: ClientError)
    | UnknownPolicyType
    | PolicyDataNotDecoded
    | InvalidType
    | InvalidValue
    | InvalidRegion

  /** The values a group of `d.Set` calls with distinct keys writes: the
      SDK refuses a key outside the schema (the error is ignored by every
      caller), so only schema keys are stored. */
  function Kept(writes: map<Field, Data>, schema: set<Field>): (r: map<Field, Data>)
    ensures r.Keys == writes.Keys * schema
    ensures forall k :: k in r ==> r[k] == writes[k]
  {
    map k | k in writes && k in schema :: writes[k]
  }

  /** One attribute after a run of writes: the written value when the key
      is written and in the schema, otherwise the value it had. */
  lemma Overwritten(attrs: map<Field, Data>, writes: map<Field, Data>, schema: set<Field>, k: Field)
    ensures var a := attrs + Kept(writes, schema);
      && (k in writes && k in schema ==> k in a && a[k] == writes[k])
      && (k !in writes || k !in schema ==> (k in a <==> k in attrs) && (k in attrs ==> a[k] == attrs[k]))
  {
  }

  /** schema.ResourceData: the resource ID and the attribute values. */
  class ResourceData {
    const schema: set<Field>
    var id: string
    var attrs: map<Field, Data>

    constructor(schema: set<Field>, id: string, attrs: map<Field, Data>)
      ensures this.schema == schema && this.id == id && this.attrs == attrs
    {
      this.schema := schema;
      this.id := id;
      this.attrs := attrs;
    }

    method SetId(v: string)
      modifies this
      ensures id == v && attrs == old(attrs)
    {
      id := v;
    }

    /** A run of `d.Set` calls with distinct keys. */
    method SetAll(writes: map<Field, Data>)
      modifies this
      ensures id == old(id) && attrs == old(attrs) + Kept(writes, schema)
    {
      attrs := attrs + Kept(writes, schema);
    }
  }

  /** The cluster/workspace/policy service a CRUD function calls. */
  datatype Service<!R> = Service(
    create: R -> Result<R, ClientError>,
    get: string -> Result<R, ClientError>,
    update: R -> Result<R, ClientError>,
    delete: string -> Option<ClientError>)

  /** What a CRUD function does: its diagnostic, the remote call it made,
      and the resource ID and attributes it leaves behind. */
  datatype Effect<R> = Effect(failure: Option<Failure>, sent: TfValues.Call<R>, id: string, attrs: map<Field, Data>)

  /** Create: NewClient, then the request (which may itself fail before any
      call), then the call; on success the ID is the response's and every
      schema attribute the response writes is overwritten. */
  function Creating<R>(id: string, attrs: map<Field, Data>, schema: set<Field>, client: Option<Service<R>>,
                       rec: Result<R, Failure>, idOf: R -> string, writes: R -> map<Field, Data>): Effect<R>
  {
    if client.None? then Effect(Some(ClientNotBuilt), TfValues.NoCall, id, attrs)
    else if rec.Err? then Effect(Some(rec.error), TfValues.NoCall, id, attrs)
    else match client.value.create(rec.value)
      case Err(e) => Effect(Some(CallFailed(e)), TfValues.CreateCall(rec.value), id, attrs)
      case Ok(r) => Effect(None, TfValues.CreateCall(rec.value), idOf(r), attrs + Kept(writes(r), schema))
  }

  /** Read: Get by `d.Id()`; not-found clears the ID and is no error. */
  function Reading<R>(id: string, attrs: map<Field, Data>, schema: set<Field>, client: Option<Service<R>>,
                      writes: R -> map<Field, Data>): Effect<R>
  {
    if client.None? then Effect(Some(ClientNotBuilt), TfValues.NoCall, id, attrs)
    else match client.value.get(id)
      case Err(e) =>
        if e == NotFoundError then Effect(None, TfValues.GetCall(id), "", attrs)
        else Effect(Some(CallFailed(e)), TfValues.GetCall(id), id, attrs)
      case Ok(r) => Effect(None, TfValues.GetCall(id), id, attrs + Kept(writes(r), schema))
  }

  /** Update: like Create, but the ID is left alone. */
  function Updating<R>(id: string, attrs: map<Field, Data>, schema: set<Field>, client: Option<Service<R>>,
                       rec: Result<R, Failure>, writes: R -> map<Field, Data>): Effect<R>
  {
    if client.None? then Effect(Some(ClientNotBuilt), TfValues.NoCall, id, attrs)
    else if rec.Err? then Effect(Some(rec.error), TfValues.NoCall, id, attrs)
    else match client.value.update(rec.value)
      case Err(e) => Effect(Some(CallFailed(e)), TfValues.UpdateCall(rec.value), id, attrs)
      case Ok(r) => Effect(None, TfValues.UpdateCall(rec.value), id, attrs + Kept(writes(r), schema))
  }

  /** Delete: the call by `d.Id()`; the state is not touched. */
  function Deleting<R>(id: string, client: Option<Service<R>>): (Option<Failure>, TfValues.Call<R>) {
    if client.None? then (Some(ClientNotBuilt), TfValues.NoCall)
    else match client.value.delete(id)
      case Some(e) => (Some(CallFailed(e)), TfValues.DeleteCall(id))
      case None => (None, TfValues.DeleteCall(id))
  }

  /** A failed Create, Read or Update leaves the ID and the attributes as
      they were; a successful one keeps every attribute it does not write. */
  lemma FailureChangesNothing<R>(id: string, attrs: map<Field, Data>, schema: set<Field>, client: Option<Service<R>>,
                                 rec: Result<R, Failure>, idOf: R -> string, writes: R -> map<Field, Data>)
    ensures var e := Creating(id, attrs, schema, client, rec, idOf, writes);
      e.failure.Some? ==> e.id == id && e.attrs == attrs
    ensures var e := Updating(id, attrs, schema, client, rec, writes);
      && (e.failure.Some? ==> e.attrs == attrs)
      && e.id == id
    ensures var e := Reading(id, attrs, schema, client, writes);
      e.failure.Some? ==> e.id == id && e.attrs == attrs
  {
  }

  /** Read leaves the attributes as they were and clears the ID exactly when
      the service answers not-found; any other error is reported. */
  lemma ReadClearsIdOnNotFound<R>(id: string, attrs: map<Field, Data>, schema: set<Field>, client: Service<R>,
                                  writes: R -> map<Field, Data>)
    requires id != ""
    ensures var e := Reading(id, attrs, schema, Some(client), writes);
      && (e.id == "" <==> client.get(id) == Err(NotFoundError))
      && (e.id == "" ==> e.failure.None? && e.attrs == attrs)
      && (e.failure.Some? <==> client.get(id).Err? && client.get(id).error != NotFoundError)
      && e.sent == TfValues.GetCall(id)
  {
  }

  /** After a successful Create, Read or Update, each schema attribute the
      response writes holds the response's value, and every other attribute
      is kept. */
  lemma SuccessWritesResponse<R>(attrs: map<Field, Data>, schema: set<Field>, writes: map<Field, Data>)
    ensures var a := attrs + Kept(writes, schema);
      && (forall k :: k in writes && k in schema ==> k in a && a[k] == writes[k])
      && (forall k :: k !in writes || k !in schema ==> (k in a <==> k in attrs) && (k in attrs ==> a[k] == attrs[k]))
  {
  }
}
