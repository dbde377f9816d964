// provider/internal/provider/terraform.go: the SDK resource
// dadcorp_terraform_workspace.
module SdkTerraform {
  import opened Common
  import opened Protocol
  import opened Records
  import opened ClientResponse
  import opened SdkResource
  import TfValues
  import ClientTerraform

  /** The top-level attributes of the resource schema; "vsc_repo" is not
      one of them. */
  const Schema: set<Field> :=
    {Name, AgentPoolId, AllowDestroyPlan, AutoApply, Description, ExecutionMode, FileTriggersEnabled,
     QueueAllRuns, SpeculativeEnabled, TerraformVersion, TriggerPrefixes, WorkingDirectory, VcsRepoBlock}

  const NoVcs := VcsRepo("", "", false, "")

  /** The VCS repo of the request: the first `vcs_repo` block, or the zero
      struct when there is none. */
  function VcsFrom(blocks: seq<Data>): VcsRepo {
    if |blocks| > 0 then
      var b := FirstBlock(blocks);
      VcsRepo(StringAt(b, OauthTokenId), StringAt(b, Branch), BoolAt(b, IngressSubmodules), StringAt(b, Identifier))
    else NoVcs
  }

  /** The trigger prefixes of the request: appended one by one to a nil
      slice, so nil when there are none. */
  function PrefixesFrom(items: seq<Data>): Option<seq<string>> {
    if items == [] then None else Some(Strings(items))
  }

  /** The workspace Create and Update send. The three pointer fields
      always point at the attribute's value; there is no ID. */
  function WorkspaceFrom(attrs: map<Field, Data>): TerraformWorkspace {
    TerraformWorkspace(
      "", StringAt(attrs, Name), StringAt(attrs, AgentPoolId), Some(BoolAt(attrs, AllowDestroyPlan)),
      BoolAt(attrs, AutoApply), StringAt(attrs, Description), StringAt(attrs, ExecutionMode),
      Some(BoolAt(attrs, FileTriggersEnabled)), "", "", BoolAt(attrs, QueueAllRuns),
      Some(BoolAt(attrs, SpeculativeEnabled)), StringAt(attrs, TerraformVersion),
      PrefixesFrom(ListAt(attrs, TriggerPrefixes)), StringAt(attrs, WorkingDirectory),
      VcsFrom(ListAt(attrs, VcsRepoBlock)))
  }

  /** The request as the Go code builds it, the prefixes by a loop. */
  method BuildWorkspace(attrs: map<Field, Data>) returns (w: TerraformWorkspace)
    ensures w == WorkspaceFrom(attrs)
  {
    var prefixes := CollectStrings(ListAt(attrs, TriggerPrefixes));
    w := WorkspaceFrom(attrs).(triggerPrefixes := if prefixes == [] then None else Some(prefixes));
    StringsElementwise(ListAt(attrs, TriggerPrefixes));
  }

  /** A Go *bool stored in the state. */
  function FlagPointer(o: Option<bool>): Data {
    if o.Some? then Flag(o.value) else NilPointer
  }

  function VcsBlock(v: VcsRepo): Data {
    Items([Block(map[OauthTokenId := Text(v.oauthTokenId), Branch := Text(v.branch),
                     IngressSubmodules := Flag(v.ingressSubmodules), Identifier := Text(v.identifier)])])
  }

  /** The `d.Set` calls after a successful Create, Read or Update, as
      written: no `trigger_prefixes`, and the VCS repo under "vsc_repo". */
  function Writes(w: TerraformWorkspace): map<Field, Data> {
    map[Name := Text(w.name), AgentPoolId := Text(w.agentPoolId), AllowDestroyPlan := FlagPointer(w.allowDestroyPlan),
        AutoApply := Flag(w.autoApply), Description := Text(w.description), ExecutionMode := Text(w.executionMode),
        FileTriggersEnabled := FlagPointer(w.fileTriggersEnabled), QueueAllRuns := Flag(w.queueAllRuns),
        SpeculativeEnabled := FlagPointer(w.speculativeEnabled), TerraformVersion := Text(w.terraformVersion),
        WorkingDirectory := Text(w.workingDirectory), VscRepo := VcsBlock(w.vcsRepo)]
  }

  /** The write-back the code evidently intends: the VCS repo under
      "vcs_repo". */
  function IntendedWrites(w: TerraformWorkspace): map<Field, Data> {
    map[Name := Text(w.name), AgentPoolId := Text(w.agentPoolId), AllowDestroyPlan := FlagPointer(w.allowDestroyPlan),
        AutoApply := Flag(w.autoApply), Description := Text(w.description), ExecutionMode := Text(w.executionMode),
        FileTriggersEnabled := FlagPointer(w.fileTriggersEnabled), QueueAllRuns := Flag(w.queueAllRuns),
        SpeculativeEnabled := FlagPointer(w.speculativeEnabled), TerraformVersion := Text(w.terraformVersion),
        WorkingDirectory := Text(w.workingDirectory), VcsRepoBlock := VcsBlock(w.vcsRepo)]
  }

  /** The three pointer fields are never nil in a request. */
  lemma PointersAlwaysSet(attrs: map<Field, Data>)
    ensures var w := WorkspaceFrom(attrs);
      && w.allowDestroyPlan == Some(BoolAt(attrs, AllowDestroyPlan))
      && w.fileTriggersEnabled == Some(BoolAt(attrs, FileTriggersEnabled))
      && w.speculativeEnabled == Some(BoolAt(attrs, SpeculativeEnabled))
  {
  }

  /** The prefixes are appended in order; `vcs_repo` is copied only when
      its block is present. */
  lemma PrefixesAndVcs(attrs: map<Field, Data>)
    ensures var w, items := WorkspaceFrom(attrs), ListAt(attrs, TriggerPrefixes);
      && (w.triggerPrefixes.None? <==> items == [])
      && (w.triggerPrefixes.Some? ==>
            |w.triggerPrefixes.value| == |items| &&
            forall i :: 0 <= i < |items| ==> w.triggerPrefixes.value[i] == StringOf(items[i]))
      && (ListAt(attrs, VcsRepoBlock) == [] ==> w.vcsRepo == NoVcs)
  {
    StringsElementwise(ListAt(attrs, TriggerPrefixes));
  }

  // ---- "vsc_repo": the response's VCS repo never reaches the state ----

  /** As written, a refresh keeps `vcs_repo` and `trigger_prefixes` as they
      were, so the next request sends the configured VCS repo and prefixes
      whatever the server answered. */
  lemma VcsNeverRefreshed(attrs: map<Field, Data>, w: TerraformWorkspace)
    ensures var a := attrs + Kept(Writes(w), Schema);
      && VscRepo !in Kept(Writes(w), Schema)
      && ListAt(a, VcsRepoBlock) == ListAt(attrs, VcsRepoBlock)
      && ListAt(a, TriggerPrefixes) == ListAt(attrs, TriggerPrefixes)
      && WorkspaceFrom(a).vcsRepo == WorkspaceFrom(attrs).vcsRepo
  {
  }

  /** An input that shows it: with no VCS repo configured, the server's
      default branch "main" is lost. */
  lemma ServerBranchLost(w: TerraformWorkspace)
    requires w.vcsRepo.branch == "main"
    ensures WorkspaceFrom(map[] + Kept(Writes(w), Schema)).vcsRepo.branch == ""
    ensures WorkspaceFrom(map[] + Kept(IntendedWrites(w), Schema)).vcsRepo.branch == "main"
  {
    VcsNeverRefreshed(map[], w);
    IntendedWritesReadBack(map[], Schema, w);
  }

  /** With the intended write-back, a refreshed state rebuilds the
      workspace the server answered with, except its ID, the two source
      fields the provider never sends, and the prefixes, which stay as
      configured. */
  lemma IntendedWritesReadBack(attrs: map<Field, Data>, schema: set<Field>, w: TerraformWorkspace)
    requires Schema <= schema
    ensures var a := attrs + Kept(IntendedWrites(w), schema);
      WorkspaceFrom(a).vcsRepo == w.vcsRepo &&
      (w.allowDestroyPlan.Some? && w.fileTriggersEnabled.Some? && w.speculativeEnabled.Some? ==>
        WorkspaceFrom(a) ==
          w.(id := "", sourceName := "", sourceUrl := "", triggerPrefixes := PrefixesFrom(ListAt(attrs, TriggerPrefixes))))
  {
    var a := attrs + Kept(IntendedWrites(w), schema);
    ListsReadBack(attrs, schema, w);
    StringsReadBack(attrs, schema, w);
    FlagsReadBack(attrs, schema, w);
    Rebuilt(a, w, ListAt(attrs, TriggerPrefixes));
  }

  /** The request rebuilt from attributes that read back as `w`'s. */
  lemma Rebuilt(a: map<Field, Data>, w: TerraformWorkspace, prefixes: seq<Data>)
    requires ListAt(a, VcsRepoBlock) == VcsBlock(w.vcsRepo).items && ListAt(a, TriggerPrefixes) == prefixes
    requires && StringAt(a, Name) == w.name && StringAt(a, AgentPoolId) == w.agentPoolId
      && StringAt(a, Description) == w.description && StringAt(a, ExecutionMode) == w.executionMode
      && StringAt(a, TerraformVersion) == w.terraformVersion && StringAt(a, WorkingDirectory) == w.workingDirectory
    requires && BoolAt(a, AutoApply) == w.autoApply && BoolAt(a, QueueAllRuns) == w.queueAllRuns
      && (w.allowDestroyPlan.Some? ==> Some(BoolAt(a, AllowDestroyPlan)) == w.allowDestroyPlan)
      && (w.fileTriggersEnabled.Some? ==> Some(BoolAt(a, FileTriggersEnabled)) == w.fileTriggersEnabled)
      && (w.speculativeEnabled.Some? ==> Some(BoolAt(a, SpeculativeEnabled)) == w.speculativeEnabled)
    ensures WorkspaceFrom(a).vcsRepo == w.vcsRepo
    ensures w.allowDestroyPlan.Some? && w.fileTriggersEnabled.Some? && w.speculativeEnabled.Some? ==>
      WorkspaceFrom(a) == w.(id := "", sourceName := "", sourceUrl := "", triggerPrefixes := PrefixesFrom(prefixes))
  {
  }

  lemma ListsReadBack(attrs: map<Field, Data>, schema: set<Field>, w: TerraformWorkspace)
    requires Schema <= schema
    ensures var a := attrs + Kept(IntendedWrites(w), schema);
      ListAt(a, VcsRepoBlock) == VcsBlock(w.vcsRepo).items && ListAt(a, TriggerPrefixes) == ListAt(attrs, TriggerPrefixes)
  {
    Overwritten(attrs, IntendedWrites(w), schema, VcsRepoBlock);
    Overwritten(attrs, IntendedWrites(w), schema, TriggerPrefixes);
  }

  lemma StringsReadBack(attrs: map<Field, Data>, schema: set<Field>, w: TerraformWorkspace)
    requires Schema <= schema
    ensures var a := attrs + Kept(IntendedWrites(w), schema);
      && StringAt(a, Name) == w.name && StringAt(a, AgentPoolId) == w.agentPoolId
      && StringAt(a, Description) == w.description && StringAt(a, ExecutionMode) == w.executionMode
      && StringAt(a, TerraformVersion) == w.terraformVersion && StringAt(a, WorkingDirectory) == w.workingDirectory
  {
    var writes := IntendedWrites(w);
    Overwritten(attrs, writes, schema, Name);
    Overwritten(attrs, writes, schema, AgentPoolId);
    Overwritten(attrs, writes, schema, Description);
    Overwritten(attrs, writes, schema, ExecutionMode);
    Overwritten(attrs, writes, schema, TerraformVersion);
    Overwritten(attrs, writes, schema, WorkingDirectory);
  }

  lemma FlagsReadBack(attrs: map<Field, Data>, schema: set<Field>, w: TerraformWorkspace)
    requires Schema <= schema
    ensures var a := attrs + Kept(IntendedWrites(w), schema);
      && BoolAt(a, AutoApply) == w.autoApply && BoolAt(a, QueueAllRuns) == w.queueAllRuns
      && (w.allowDestroyPlan.Some? ==> Some(BoolAt(a, AllowDestroyPlan)) == w.allowDestroyPlan)
      && (w.fileTriggersEnabled.Some? ==> Some(BoolAt(a, FileTriggersEnabled)) == w.fileTriggersEnabled)
      && (w.speculativeEnabled.Some? ==> Some(BoolAt(a, SpeculativeEnabled)) == w.speculativeEnabled)
  {
    var writes := IntendedWrites(w);
    Overwritten(attrs, writes, schema, AutoApply);
    Overwritten(attrs, writes, schema, QueueAllRuns);
    Overwritten(attrs, writes, schema, AllowDestroyPlan);
    Overwritten(attrs, writes, schema, FileTriggersEnabled);
    Overwritten(attrs, writes, schema, SpeculativeEnabled);
  }

  // ---- Update sends no ID ----

  /** The service the SDK functions call, as the client implements it over
      `send` (the server). */
  function ClientService(send: Request<TerraformWorkspace> -> Response<TerraformWorkspace>): Service<TerraformWorkspace> {
    Service(w => ClientTerraform.Create(w, send), id => ClientTerraform.Get(id, send),
            w => ClientTerraform.Update(w, send), id => ClientTerraform.Delete(id, send))
  }

  /** As written, Update sends the workspace built from the attributes
      alone, with an empty ID, so the client refuses it before any request
      and the state is left as it was. */
  lemma UpdateAlwaysRejected(id: string, attrs: map<Field, Data>, schema: set<Field>,
                             send: Request<TerraformWorkspace> -> Response<TerraformWorkspace>)
    ensures var e := Updating(id, attrs, schema, Some(ClientService(send)), Ok(WorkspaceFrom(attrs)), Writes);
      e.failure == Some(CallFailed(EmptyId)) && e.id == id && e.attrs == attrs
  {
    ClientTerraform.UpdateFollowsRules(WorkspaceFrom(attrs), send);
  }

  /** The workspace Update evidently intends to send: with `d.Id()`. */
  function IntendedUpdateFrom(id: string, attrs: map<Field, Data>): TerraformWorkspace {
    WorkspaceFrom(attrs).(id := id)
  }

  /** With the ID set, the update reaches the server as a PUT at that ID,
      and a success refreshes the state from the reply. */
  lemma IntendedUpdateReachesServer(id: string, attrs: map<Field, Data>, schema: set<Field>,
                                    send: Request<TerraformWorkspace> -> Response<TerraformWorkspace>)
    requires id != ""
    ensures var w := IntendedUpdateFrom(id, attrs);
      var e := Updating(id, attrs, schema, Some(ClientService(send)), Ok(w), IntendedWrites);
      var answer := Classify(ClientTerraform.UpdateRules, send(Request(HttpPut, id, Some(w))));
      && e.sent == TfValues.UpdateCall(w)
      && (answer.Err? ==> e.failure == Some(CallFailed(answer.error)))
      && (answer.Ok? ==> e.failure.None? && e.attrs == attrs + Kept(IntendedWrites(answer.value), schema))
  {
    ClientTerraform.UpdateFollowsRules(IntendedUpdateFrom(id, attrs), send);
  }

  method CreateWorkspace(d: ResourceData, client: Option<Service<TerraformWorkspace>>)
    returns (f: Option<Failure>, sent: TfValues.Call<TerraformWorkspace>)
    modifies d
    ensures Effect(f, sent, d.id, d.attrs) ==
      Creating(old(d.id), old(d.attrs), d.schema, client, Ok(WorkspaceFrom(old(d.attrs))),
               (w: TerraformWorkspace) => w.id, Writes)
  {
    if client.None? {
      return Some(ClientNotBuilt), TfValues.NoCall;
    }
    var workspace := BuildWorkspace(d.attrs);
    sent := TfValues.CreateCall(workspace);
    var resp := client.value.create(workspace);
    if resp.Err? {
      return Some(CallFailed(resp.error)), sent;
    }
    d.SetId(resp.value.id);
    d.SetAll(Writes(resp.value));
    f := None;
  }

  method ReadWorkspace(d: ResourceData, client: Option<Service<TerraformWorkspace>>)
    returns (f: Option<Failure>, sent: TfValues.Call<TerraformWorkspace>)
    modifies d
    ensures Effect(f, sent, d.id, d.attrs) == Reading(old(d.id), old(d.attrs), d.schema, client, Writes)
  {
    if client.None? {
      return Some(ClientNotBuilt), TfValues.NoCall;
    }
    sent := TfValues.GetCall(d.id);
    var resp := client.value.get(d.id);
    if resp.Err? {
      if resp.error == NotFoundError {
        d.SetId("");
        return None, sent;
      }
      return Some(CallFailed(resp.error)), sent;
    }
    d.SetAll(Writes(resp.value));
    f := None;
  }

  /** As written: the workspace is sent without `d.Id()`. */
  method UpdateWorkspace(d: ResourceData, client: Option<Service<TerraformWorkspace>>)
    returns (f: Option<Failure>, sent: TfValues.Call<TerraformWorkspace>)
    modifies d
    ensures Effect(f, sent, d.id, d.attrs) ==
      Updating(old(d.id), old(d.attrs), d.schema, client, Ok(WorkspaceFrom(old(d.attrs))), Writes)
  {
    if client.None? {
      return Some(ClientNotBuilt), TfValues.NoCall;
    }
    var workspace := BuildWorkspace(d.attrs);
    sent := TfValues.UpdateCall(workspace);
    var resp := client.value.update(workspace);
    if resp.Err? {
      return Some(CallFailed(resp.error)), sent;
    }
    d.SetAll(Writes(resp.value));
    f := None;
  }

  method DeleteWorkspace(d: ResourceData, client: Option<Service<TerraformWorkspace>>)
    returns (f: Option<Failure>, sent: TfValues.Call<TerraformWorkspace>)
    ensures (f, sent) == Deleting(d.id, client)
  {
    if client.None? {
      return Some(ClientNotBuilt), TfValues.NoCall;
    }
    sent := TfValues.DeleteCall(d.id);
    var err := client.value.delete(d.id);
    f := if err.Some? then Some(CallFailed(err.value)) else None;
  }
}
