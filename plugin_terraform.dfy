// provider/internal/provider/plugin_terraform.go: the low-level engine of
// the Terraform workspace resource: the execution-mode rule of Validate,
// Plan's prior-dependent defaults and vcs_repo block, the Apply request and
// merge-back, and Read and Import.
module PluginTerraform {
  import opened Common
  import opened Records
  import opened ClientResponse
  import opened TfValues

  /** The workspace service calls the engine makes, as oracles. A missing
      client (NewClient failed) is modelled by passing None. */
  datatype TerraformRemote = TerraformRemote(
    get: string -> Result<TerraformWorkspace, ClientError>,
    create: TerraformWorkspace -> Result<TerraformWorkspace, ClientError>,
    update: TerraformWorkspace -> Result<TerraformWorkspace, ClientError>,
    delete: string -> Option<ClientError>)

  /** The workspace schema's attributes. */
  predicate WorkspaceKey(k: AttrName) {
    || k == Id || k == Name || k == AgentPoolId || k == AllowDestroyPlan || k == AutoApply
    || k == Description || k == ExecutionMode || k == FileTriggersEnabled || k == QueueAllRuns
    || k == SpeculativeEnabled || k == TerraformVersion || k == TriggerPrefixes
    || k == WorkingDirectory || k == VcsRepoBlock
  }

  /** The vcs_repo block's attributes. */
  const VcsKeys: set<AttrName> := {OauthTokenId, Branch, IngressSubmodules, Identifier}

  /** The computed attributes Plan turns from null into Unknown, in the
      order it visits them. */
  const UnknownOrder: seq<AttrName> := [
    Id, AllowDestroyPlan, AutoApply, ExecutionMode, FileTriggersEnabled,
    SpeculativeEnabled, TerraformVersion, TriggerPrefixes, WorkingDirectory]

  predicate Computed(k: AttrName) {
    || k == Id || k == AllowDestroyPlan || k == AutoApply || k == ExecutionMode
    || k == FileTriggersEnabled || k == SpeculativeEnabled || k == TerraformVersion
    || k == TriggerPrefixes || k == WorkingDirectory
  }

  /** The attributes whose null Plan resolves from the prior state. */
  predicate PriorDefaulted(k: AttrName) {
    k == AgentPoolId || k == Description
  }

  /** Every attribute Plan may rewrite. */
  predicate Rewritten(k: AttrName) {
    Computed(k) || PriorDefaulted(k) || k == VcsRepoBlock
  }

  /** The attributes Apply's final state takes from the plan unconditionally. */
  predicate Copied(k: AttrName) {
    k == Name || k == AgentPoolId || k == QueueAllRuns
  }

  /** The attributes Apply's final state takes from the plan when known and
      non-null, and from the server otherwise, in the order it visits
      them. */
  const MergedOrder: seq<AttrName> := [
    AllowDestroyPlan, AutoApply, Description, ExecutionMode, FileTriggersEnabled,
    SpeculativeEnabled, TerraformVersion, TriggerPrefixes, WorkingDirectory]

  predicate ServerDefaulted(k: AttrName) {
    || k == AllowDestroyPlan || k == AutoApply || k == Description || k == ExecutionMode
    || k == FileTriggersEnabled || k == SpeculativeEnabled || k == TerraformVersion
    || k == TriggerPrefixes || k == WorkingDirectory
  }

  /** ValidateResourceTypeConfig: when execution_mode and agent_pool_id are
      both known and non-null, an agent pool may only be set in "agent"
      mode. */
  function ValidateResourceTypeConfig(config: Val): (d: Option<Diag>)
    ensures AsMap(config).None? ==> d == Some(Diag(UnexpectedConfigFormat, []))
    ensures d == Some(Diag(InvalidExecutionMode, [Attr(ExecutionMode)])) <==> (
      && AsMap(config).Some?
      && Get(AsMap(config).value, ExecutionMode).Str?
      && Get(AsMap(config).value, AgentPoolId).Str?
      && Get(AsMap(config).value, ExecutionMode).s != "agent"
      && Get(AsMap(config).value, AgentPoolId).s != "")
    ensures AsMap(config).Some? ==>
      var mode := Get(AsMap(config).value, ExecutionMode);
      var pool := Get(AsMap(config).value, AgentPoolId);
      && (!(KnownNonNull(mode) && KnownNonNull(pool)) ==> d.None?)
      && (KnownNonNull(mode) && KnownNonNull(pool) && AsString(mode).None? ==>
            d == Some(Diag(UnexpectedConfigFormat, [Attr(ExecutionMode)])))
      && (KnownNonNull(mode) && KnownNonNull(pool) && AsString(mode).Some? && AsString(pool).None? ==>
            d == Some(Diag(UnexpectedConfigFormat, [Attr(AgentPoolId)])))
  {
    match AsMap(config)
    case None => Some(Diag(UnexpectedConfigFormat, []))
    case Some(values) =>
      var mode := Get(values, ExecutionMode);
      var pool := Get(values, AgentPoolId);
      if !(KnownNonNull(mode) && KnownNonNull(pool)) then None
      else if AsString(mode).None? then Some(Diag(UnexpectedConfigFormat, [Attr(ExecutionMode)]))
      else if AsString(pool).None? then Some(Diag(UnexpectedConfigFormat, [Attr(AgentPoolId)]))
      else if AsString(mode).value != "agent" && AsString(pool).value != "" then
        Some(Diag(InvalidExecutionMode, [Attr(ExecutionMode)]))
      else None
  }

  /** A string list as a list value of strings. */
  function StrValues(ps: seq<string>): (vs: seq<Val>)
    ensures |vs| == |ps|
    ensures forall i :: 0 <= i < |ps| ==> vs[i] == Str(ps[i])
  {
    seq(|ps|, i requires 0 <= i < |ps| => Str(ps[i]))
  }

  /** A nil trigger-prefix slice ranges over nothing. */
  function Prefixes(ps: Option<seq<string>>): seq<string> {
    if ps.None? then [] else ps.value
  }

  /** The vcs_repo block written for a workspace the server returned. */
  function VcsState(v: VcsRepo): Val {
    Obj(map[
      OauthTokenId := Str(v.oauthTokenId),
      Branch := Str(v.branch),
      Identifier := Str(v.identifier),
      IngressSubmodules := Bool(v.ingressSubmodules)])
  }

  /** The state written for a workspace the server returned (Read, Import):
      nil pointers become null, a nil prefix list the empty list. */
  function WorkspaceState(w: TerraformWorkspace): Val {
    Obj(map[
      Name := Str(w.name),
      AgentPoolId := Str(w.agentPoolId),
      AllowDestroyPlan := OptBool(w.allowDestroyPlan),
      AutoApply := Bool(w.autoApply),
      Description := Str(w.description),
      ExecutionMode := Str(w.executionMode),
      FileTriggersEnabled := OptBool(w.fileTriggersEnabled),
      QueueAllRuns := Bool(w.queueAllRuns),
      SpeculativeEnabled := OptBool(w.speculativeEnabled),
      TerraformVersion := Str(w.terraformVersion),
      TriggerPrefixes := List(StrValues(Prefixes(w.triggerPrefixes))),
      WorkingDirectory := Str(w.workingDirectory),
      VcsRepoBlock := VcsState(w.vcsRepo),
      Id := Str(w.id)])
  }

  /** A written workspace state holds exactly the schema's attributes. */
  lemma WorkspaceStateKeys(w: TerraformWorkspace)
    ensures WorkspaceState(w).Obj?
    ensures forall k :: k in WorkspaceState(w).attrs <==> WorkspaceKey(k)
  {
    var attrs := WorkspaceState(w).attrs;
    forall k | k in attrs
      ensures WorkspaceKey(k)
    {
    }
    forall k | WorkspaceKey(k)
      ensures k in attrs
    {
    }
  }

  /** A written workspace state holds no Unknown. */
  lemma WorkspaceStateWhollyKnown(w: TerraformWorkspace)
    ensures WhollyKnown(WorkspaceState(w))
  {
    var vcs := VcsState(w.vcsRepo);
    forall k | k in vcs.attrs
      ensures WhollyKnown(vcs.attrs[k])
    {
      assert k in VcsKeys;
    }
    var prefixes := List(StrValues(Prefixes(w.triggerPrefixes)));
    assert WhollyKnown(prefixes);
    var attrs := WorkspaceState(w).attrs;
    forall k | k in attrs
      ensures WhollyKnown(attrs[k])
    {
      if k == TriggerPrefixes {
        assert attrs[k] == prefixes;
      } else if k == VcsRepoBlock {
        assert attrs[k] == vcs;
      } else {
        ScalarKnown(attrs[k]);
      }
    }
  }

  lemma ScalarKnown(v: Val)
    requires v.Null? || v.Str? || v.Bool?
    ensures WhollyKnown(v)
  {
  }

  /** The trigger-prefix loop of Read, Import and the merge-back: each
      prefix, in order, becomes a string value. */
  method PrefixValues(ps: seq<string>) returns (vs: seq<Val>)
    ensures vs == StrValues(ps)
  {
    vs := [];
    for i := 0 to |ps|
      invariant |vs| == i
      invariant forall j :: 0 <= j < i ==> vs[j] == Str(ps[j])
    {
      vs := vs + [Str(ps[i])];
    }
  }

  /** The state of a workspace the server returned, built as Read and Import
      build it. */
  method StateOf(w: TerraformWorkspace) returns (v: Val)
    ensures v == WorkspaceState(w)
  {
    var triggerPrefixes := PrefixValues(Prefixes(w.triggerPrefixes));
    v := Obj(map[
      Name := Str(w.name),
      AgentPoolId := Str(w.agentPoolId),
      AllowDestroyPlan := OptBool(w.allowDestroyPlan),
      AutoApply := Bool(w.autoApply),
      Description := Str(w.description),
      ExecutionMode := Str(w.executionMode),
      FileTriggersEnabled := OptBool(w.fileTriggersEnabled),
      QueueAllRuns := Bool(w.queueAllRuns),
      SpeculativeEnabled := OptBool(w.speculativeEnabled),
      TerraformVersion := Str(w.terraformVersion),
      TriggerPrefixes := List(triggerPrefixes),
      WorkingDirectory := Str(w.workingDirectory),
      VcsRepoBlock := VcsState(w.vcsRepo),
      Id := Str(w.id)]);
  }

  /** ReadResource: a workspace the server no longer has removes the
      resource (null state); any other Get error is reported. */
  method ReadResource(current: Val, clients: Option<TerraformRemote>) returns (r: Reply)
    ensures AsMap(current).None? ==> r == Fail(Diag(UnexpectedStateFormat, []))
    ensures AsMap(current).Some? && AsString(Get(AsMap(current).value, Id)).None? ==>
      r == Fail(Diag(UnexpectedStateFormat, [Attr(Id)]))
    ensures AsMap(current).Some? && AsString(Get(AsMap(current).value, Id)).Some? ==>
      var id := AsString(Get(AsMap(current).value, Id)).value;
      && (clients.None? ==> r == Fail(Diag(ErrorCreatingClient, [])))
      && (clients.Some? && clients.value.get(id) == Err(NotFoundError) ==> r == Done(Null))
      && (clients.Some? && clients.value.get(id).Err? && clients.value.get(id) != Err(NotFoundError) ==>
            r == Fail(Diag(ErrorRetrieving, [])))
      && (clients.Some? && clients.value.get(id).Ok? ==> r == Done(WorkspaceState(clients.value.get(id).value)))
  {
    var state := AsMap(current);
    if state.None? {
      return Fail(Diag(UnexpectedStateFormat, []));
    }
    var id := AsString(Get(state.value, Id));
    if id.None? {
      return Fail(Diag(UnexpectedStateFormat, [Attr(Id)]));
    }
    if clients.None? {
      return Fail(Diag(ErrorCreatingClient, []));
    }
    var workspace := clients.value.get(id.value);
    if workspace.Err? {
      if workspace.error == NotFoundError {
        return Done(Null);
      }
      return Fail(Diag(ErrorRetrieving, []));
    }
    var v := StateOf(workspace.value);
    r := Done(v);
  }

  /** ImportResourceState: unlike Read, every Get error, not-found included,
      is reported. */
  method ImportResourceState(id: string, clients: Option<TerraformRemote>) returns (r: Reply)
    ensures r.Done? <==> clients.Some? && clients.value.get(id).Ok?
    ensures r.Done? ==> r.state == WorkspaceState(clients.value.get(id).value)
    ensures clients.Some? && clients.value.get(id).Err? ==> r == Fail(Diag(ErrorRetrieving, []))
  {
    if clients.None? {
      return Fail(Diag(ErrorCreatingClient, []));
    }
    var workspace := clients.value.get(id);
    if workspace.Err? {
      return Fail(Diag(ErrorRetrieving, []));
    }
    var v := StateOf(workspace.value);
    r := Done(v);
  }

  /** The planning rule for agent_pool_id and description: a non-null value
      is kept; a null one becomes "" when the prior value reads as "" and
      stays null otherwise. The prior value must convert to a string. */
  function PriorDefault(k: AttrName, v: Val, before: map<AttrName, Val>): (r: Result<Val, Diag>)
    ensures !v.Null? ==> r == Ok(v)
    ensures v.Null? && AsString(Get(before, k)).None? ==> r == Err(Diag(UnexpectedPriorStateFormat, [Attr(k)]))
    ensures v.Null? && AsString(Get(before, k)) == Some("") ==> r == Ok(Str(""))
    ensures v.Null? && AsString(Get(before, k)).Some? && AsString(Get(before, k)) != Some("") ==> r == Ok(Null)
  {
    if !v.Null? then Ok(v)
    else
      match AsString(Get(before, k))
      case None => Err(Diag(UnexpectedPriorStateFormat, [Attr(k)]))
      case Some(s) => Ok(if s == "" then Str("") else Null)
  }

  /** The planning rule for a known, non-null vcs_repo block: oauth_token_id
      and identifier are copied, a null branch becomes Unknown, and a null
      ingress_submodules becomes false when the prior block's reads as false
      (it stays null when that was true). */
  function PlanVcs(vcs: Val, before: map<AttrName, Val>): Result<Val, Diag>
  {
    match AsMap(vcs)
    case None => Err(Diag(UnexpectedStateFormat, [Attr(VcsRepoBlock)]))
    case Some(v) =>
      match AsMap(Get(before, VcsRepoBlock))
      case None => Err(Diag(UnexpectedPriorStateFormat, [Attr(VcsRepoBlock)]))
      case Some(oldVcs) =>
        var ingress := Get(v, IngressSubmodules);
        var oldIngress := AsBool(Get(oldVcs, IngressSubmodules));
        if ingress.Null? && oldIngress.None? then
          Err(Diag(UnexpectedPriorStateFormat, [Attr(VcsRepoBlock), Attr(IngressSubmodules)]))
        else
          var planIngress := if ingress.Null? && !oldIngress.value then Bool(false) else ingress;
          Ok(Obj(map[
            OauthTokenId := Get(v, OauthTokenId),
            Branch := NullToUnknown(Get(v, Branch)),
            IngressSubmodules := planIngress,
            Identifier := Get(v, Identifier)]))
  }

  /** What PlanVcs answers: the errors of a block or prior block that is not
      an object and of an unreadable prior ingress_submodules, and the
      planned block's four attributes. */
  lemma PlanVcsRules(vcs: Val, before: map<AttrName, Val>)
    ensures var r := PlanVcs(vcs, before);
      && (AsMap(vcs).None? ==> r == Err(Diag(UnexpectedStateFormat, [Attr(VcsRepoBlock)])))
      && (AsMap(vcs).Some? && AsMap(Get(before, VcsRepoBlock)).None? ==>
            r == Err(Diag(UnexpectedPriorStateFormat, [Attr(VcsRepoBlock)])))
      && (r.Ok? ==>
            var v := AsMap(vcs).value;
            var nv := r.value;
            && nv.Obj? && nv.attrs.Keys == VcsKeys
            && nv.attrs[OauthTokenId] == Get(v, OauthTokenId)
            && nv.attrs[Identifier] == Get(v, Identifier)
            && nv.attrs[Branch] == NullToUnknown(Get(v, Branch))
            && (!Get(v, IngressSubmodules).Null? ==> nv.attrs[IngressSubmodules] == v[IngressSubmodules]))
      && (AsMap(vcs).Some? && AsMap(Get(before, VcsRepoBlock)).Some? && Get(AsMap(vcs).value, IngressSubmodules).Null? ==>
            var oldIngress := AsBool(Get(AsMap(Get(before, VcsRepoBlock)).value, IngressSubmodules));
            && (oldIngress.None? ==> r == Err(Diag(UnexpectedPriorStateFormat, [Attr(VcsRepoBlock), Attr(IngressSubmodules)])))
            && (oldIngress == Some(false) ==> r.Ok? && r.value.attrs[IngressSubmodules] == Bool(false))
            && (oldIngress == Some(true) ==> r.Ok? && r.value.attrs[IngressSubmodules] == Null))
  {
  }

  /** The shape Plan leaves behind for a given prior state: no null among the
      computed attributes; agent_pool_id and description null only when the
      prior value is a non-empty string; a known, non-null vcs_repo holding
      exactly its four attributes with a non-null branch, and a null
      ingress_submodules only when the prior block's is true. */
  predicate Planned(v: Val, before: map<AttrName, Val>) {
    && v.Obj?
    && ComputedPlanned(v.attrs)
    && PriorPlanned(v.attrs, before)
    && VcsPlanned(Get(v.attrs, VcsRepoBlock), before)
  }

  predicate ComputedPlanned(p: map<AttrName, Val>) {
    forall k :: Computed(k) ==> !Get(p, k).Null?
  }

  predicate PriorPlanned(p: map<AttrName, Val>, before: map<AttrName, Val>) {
    forall k :: PriorDefaulted(k) ==> !Get(p, k).Null? || (AsString(Get(before, k)).Some? && AsString(Get(before, k)).value != "")
  }

  predicate VcsPlanned(t: Val, before: map<AttrName, Val>) {
    KnownNonNull(t) ==> (
      && t.Obj? && t.attrs.Keys == VcsKeys && !t.attrs[Branch].Null?
      && AsMap(Get(before, VcsRepoBlock)).Some?
      && (t.attrs[IngressSubmodules].Null? ==>
            AsBool(Get(AsMap(Get(before, VcsRepoBlock)).value, IngressSubmodules)) == Some(true)))
  }
  /** A planned vcs_repo block is planned again to itself. */
  lemma PlanVcsFixed(t: Val, before: map<AttrName, Val>)
    requires t.Obj? && t.attrs.Keys == VcsKeys && !t.attrs[Branch].Null?
    requires AsMap(Get(before, VcsRepoBlock)).Some?
    requires t.attrs[IngressSubmodules].Null? ==> AsBool(Get(AsMap(Get(before, VcsRepoBlock)).value, IngressSubmodules)) == Some(true)
    ensures PlanVcs(t, before) == Ok(t)
  {
    var nv := PlanVcs(t, before).value;
    assert nv.attrs == t.attrs;
  }

  /** The planned vcs_repo block, built key by key. */
  method PlanVcsBlock(vcsVal: Val, before: map<AttrName, Val>) returns (r: Result<Val, Diag>)
    ensures r == PlanVcs(vcsVal, before)
  {
    var vcsMap := AsMap(vcsVal);
    if vcsMap.None? {
      return Err(Diag(UnexpectedStateFormat, [Attr(VcsRepoBlock)]));
    }
    var vcs := vcsMap.value;
    var oldVcs := AsMap(Get(before, VcsRepoBlock));
    if oldVcs.None? {
      return Err(Diag(UnexpectedPriorStateFormat, [Attr(VcsRepoBlock)]));
    }
    var ingress := Get(vcs, IngressSubmodules);
    if ingress.Null? {
      var oldIngress := AsBool(Get(oldVcs.value, IngressSubmodules));
      if oldIngress.None? {
        return Err(Diag(UnexpectedPriorStateFormat, [Attr(VcsRepoBlock), Attr(IngressSubmodules)]));
      }
      if !oldIngress.value {
        ingress := Bool(false);
      }
    }
    var branch := Unknown;
    if !Get(vcs, Branch).Null? {
      branch := Get(vcs, Branch);
    }
    r := Ok(Obj(map[
      OauthTokenId := Get(vcs, OauthTokenId),
      Branch := branch,
      IngressSubmodules := ingress,
      Identifier := Get(vcs, Identifier)]));
  }

  /** The computed-attribute rule applied to the attributes ks in turn:
      each null (or missing) one becomes Unknown. */
  function MarkAll(m: map<AttrName, Val>, ks: seq<AttrName>): map<AttrName, Val>
    decreases |ks|
  {
    if ks == [] then m
    else
      var p := MarkAll(m, ks[..|ks| - 1]);
      var k := ks[|ks| - 1];
      if Get(p, k).Null? then p[k := Unknown] else p
  }

  /** Marking adds exactly the visited attributes, turns each visited null
      into Unknown, leaves every other attribute as it was, and changes
      nothing when no visited attribute is null. */
  lemma {:induction false} MarkAllRules(m: map<AttrName, Val>, ks: seq<AttrName>)
    ensures forall k :: k in MarkAll(m, ks) <==> k in m || k in ks
    ensures forall k :: k in ks ==> MarkAll(m, ks)[k] == NullToUnknown(Get(m, k))
    ensures forall k :: k in m && k !in ks ==> MarkAll(m, ks)[k] == m[k]
    ensures (forall k :: k in ks ==> !Get(m, k).Null?) ==> MarkAll(m, ks) == m
  {
    if ks != [] {
      var init := ks[..|ks| - 1];
      assert ks == init + [ks[|ks| - 1]];
      MarkAllRules(m, init);
    }
  }

  lemma UnknownOrderSpansKeys()
    ensures forall k :: k in UnknownOrder <==> Computed(k)
  {
  }

  /** The computed-attribute step of Plan over the schema's computed
      attributes. */
  lemma MarkedUnknown(m: map<AttrName, Val>)
    ensures var p := MarkAll(m, UnknownOrder);
      && (forall k :: k in p <==> k in m || Computed(k))
      && (forall k :: Computed(k) ==> p[k] == NullToUnknown(Get(m, k)))
      && (forall k :: k in m && !Computed(k) ==> p[k] == m[k])
      && ((forall k :: Computed(k) ==> !Get(m, k).Null?) ==> p == m)
  {
    UnknownOrderSpansKeys();
    MarkAllRules(m, UnknownOrder);
  }

  /** The computed-attribute step of Plan. The source spells out one
      identical test per attribute; here they are one loop over the
      attributes in the same order. */
  method MarkUnknown(m: map<AttrName, Val>) returns (p: map<AttrName, Val>)
    ensures p == MarkAll(m, UnknownOrder)
  {
    p := m;
    for i := 0 to |UnknownOrder|
      invariant p == MarkAll(m, UnknownOrder[..i])
    {
      var k := UnknownOrder[i];
      assert UnknownOrder[..i + 1][..i] == UnknownOrder[..i];
      if Get(p, k).Null? {
        p := p[k := Unknown];
      }
    }
    assert UnknownOrder[..|UnknownOrder|] == UnknownOrder;
  }

  /** The attributes Plan treats apart are distinct, and none is computed. */
  lemma PlanKeysApart()
    ensures !Computed(AgentPoolId) && !Computed(Description) && !Computed(VcsRepoBlock)
    ensures AgentPoolId != Description && AgentPoolId != VcsRepoBlock && Description != VcsRepoBlock
  {
  }

  /** The prior-state step of Plan for agent_pool_id or description: the
      attribute takes the value PriorDefault gives it (a null that stays
      null is not written), and nothing else changes. */
  function DefaultedFromPrior(p: map<AttrName, Val>, k: AttrName, before: map<AttrName, Val>): Result<map<AttrName, Val>, Diag>
  {
    if !Get(p, k).Null? then Ok(p)
    else
      match AsString(Get(before, k))
      case None => Err(Diag(UnexpectedPriorStateFormat, [Attr(k)]))
      case Some(s) => Ok(if s == "" then p[k := Str("")] else p)
  }

  /** The prior-state step sets the attribute to what PriorDefault gives
      it and changes nothing else. */
  lemma DefaultedFromPriorRules(p: map<AttrName, Val>, k: AttrName, before: map<AttrName, Val>)
    ensures var r := DefaultedFromPrior(p, k, before);
      var d := PriorDefault(k, Get(p, k), before);
      && (r.Err? <==> d.Err?)
      && (r.Err? ==> r.error == d.error)
      && (r.Ok? ==> Get(r.value, k) == d.value)
      && (r.Ok? ==> forall j :: j in r.value <==> j in p || (j == k && k in r.value))
      && (r.Ok? ==> forall j :: j in p && j != k ==> r.value[j] == p[j])
      && (d == Ok(Get(p, k)) ==> r == Ok(p))
  {
  }

  method DefaultFromPrior(p: map<AttrName, Val>, k: AttrName, before: map<AttrName, Val>) returns (r: Result<map<AttrName, Val>, Diag>)
    ensures r == DefaultedFromPrior(p, k, before)
  {
    if !Get(p, k).Null? {
      return Ok(p);
    }
    var prior := AsString(Get(before, k));
    if prior.None? {
      return Err(Diag(UnexpectedPriorStateFormat, [Attr(k)]));
    }
    if prior.value == "" {
      return Ok(p[k := Str("")]);
    }
    r := Ok(p);
  }

  /** What Plan does to every attribute but vcs_repo: null computed
      attributes become Unknown, then agent_pool_id and description follow
      the prior-state rule; everything else is kept. */
  function AttributesPlanned(m: map<AttrName, Val>, before: map<AttrName, Val>): Result<map<AttrName, Val>, Diag> {
    match DefaultedFromPrior(MarkAll(m, UnknownOrder), AgentPoolId, before)
    case Err(e) => Err(e)
    case Ok(pooled) => DefaultedFromPrior(pooled, Description, before)
  }

  /** The computed-attribute rule, from the proposed attributes m to the
      planned ones p. */
  predicate ComputedRule(m: map<AttrName, Val>, p: map<AttrName, Val>) {
    forall k :: Computed(k) ==> Get(p, k) == NullToUnknown(Get(m, k))
  }

  /** The prior-state rule for agent_pool_id and description. */
  predicate PriorRule(m: map<AttrName, Val>, before: map<AttrName, Val>, p: map<AttrName, Val>) {
    && PriorDefault(AgentPoolId, Get(m, AgentPoolId), before) == Ok(Get(p, AgentPoolId))
    && PriorDefault(Description, Get(m, Description), before) == Ok(Get(p, Description))
  }

  /** The attribute step adds computed or prior-defaulted attributes
      only. */
  predicate AttributeKeys(m: map<AttrName, Val>, a: map<AttrName, Val>) {
    && m.Keys <= a.Keys
    && (forall k :: k in a && k !in m ==> Computed(k) || PriorDefaulted(k))
  }

  /** The attribute step keeps every other attribute as proposed. */
  predicate AttributesKept(m: map<AttrName, Val>, a: map<AttrName, Val>) {
    forall k :: k in m && !Computed(k) && !PriorDefaulted(k) ==> k in a && a[k] == m[k]
  }

  /** The rules Plan follows for every attribute but vcs_repo, from the
      proposed attributes m and the prior ones to the result a. */
  predicate AttributeRules(m: map<AttrName, Val>, before: map<AttrName, Val>, a: map<AttrName, Val>) {
    && AttributeKeys(m, a)
    && AttributesKept(m, a)
    && ComputedRule(m, a)
    && PriorRule(m, before, a)
  }

  /** The errors of the attribute step: agent_pool_id's prior-state error
      first, then description's. */
  lemma AttributesPlannedErrors(m: map<AttrName, Val>, before: map<AttrName, Val>)
    ensures
      var r := AttributesPlanned(m, before);
      var pool := PriorDefault(AgentPoolId, Get(m, AgentPoolId), before);
      var description := PriorDefault(Description, Get(m, Description), before);
      && (pool.Err? ==> r == Err(pool.error))
      && (pool.Ok? && description.Err? ==> r == Err(description.error))
      && (pool.Ok? && description.Ok? ==> r.Ok?)
  {
    MarkedUnknown(m);
    PlanKeysApart();
    var marked := MarkAll(m, UnknownOrder);
    DefaultedFromPriorRules(marked, AgentPoolId, before);
    var pooled := DefaultedFromPrior(marked, AgentPoolId, before);
    if pooled.Ok? {
      DefaultedFromPriorRules(pooled.value, Description, before);
    }
  }

  /** The attribute step follows the rules. */
  lemma AttributesPlannedRules(m: map<AttrName, Val>, before: map<AttrName, Val>)
    requires AttributesPlanned(m, before).Ok?
    ensures AttributeRules(m, before, AttributesPlanned(m, before).value)
  {
    MarkedUnknown(m);
    PlanKeysApart();
    var marked := MarkAll(m, UnknownOrder);
    DefaultedFromPriorRules(marked, AgentPoolId, before);
    var pooled := DefaultedFromPrior(marked, AgentPoolId, before).value;
    DefaultedFromPriorRules(pooled, Description, before);
    var a := AttributesPlanned(m, before).value;
    AttributeStepsKeys(m, marked, pooled, a);
    AttributeStepsValues(m, marked, pooled, a);
    AttributeStepsPrior(m, before, marked, pooled, a);
  }

  /** The attributes the three steps of the attribute step add. */
  lemma AttributeStepsKeys(m: map<AttrName, Val>, marked: map<AttrName, Val>, pooled: map<AttrName, Val>, a: map<AttrName, Val>)
    requires forall k :: k in marked <==> k in m || Computed(k)
    requires forall j :: j in pooled <==> j in marked || (j == AgentPoolId && AgentPoolId in pooled)
    requires forall j :: j in a <==> j in pooled || (j == Description && Description in a)
    ensures AttributeKeys(m, a)
  {
  }

  /** The values the three steps of the attribute step leave: computed ones
      null-to-Unknown, and all but agent_pool_id and description as
      proposed. */
  lemma AttributeStepsValues(m: map<AttrName, Val>, marked: map<AttrName, Val>, pooled: map<AttrName, Val>, a: map<AttrName, Val>)
    requires forall k :: k in marked <==> k in m || Computed(k)
    requires forall k :: Computed(k) ==> marked[k] == NullToUnknown(Get(m, k))
    requires forall k :: k in m && !Computed(k) ==> marked[k] == m[k]
    requires forall j :: j in pooled <==> j in marked || (j == AgentPoolId && AgentPoolId in pooled)
    requires forall j :: j in marked && j != AgentPoolId ==> pooled[j] == marked[j]
    requires forall j :: j in a <==> j in pooled || (j == Description && Description in a)
    requires forall j :: j in pooled && j != Description ==> a[j] == pooled[j]
    ensures AttributesKept(m, a)
    ensures ComputedRule(m, a)
  {
    AttributeStepsKept(m, marked, pooled, a);
    AttributeStepsComputed(m, marked, pooled, a);
  }

  lemma AttributeStepsKept(m: map<AttrName, Val>, marked: map<AttrName, Val>, pooled: map<AttrName, Val>, a: map<AttrName, Val>)
    requires forall k :: k in marked <==> k in m || Computed(k)
    requires forall k :: k in m && !Computed(k) ==> marked[k] == m[k]
    requires forall j :: j in pooled <==> j in marked || (j == AgentPoolId && AgentPoolId in pooled)
    requires forall j :: j in marked && j != AgentPoolId ==> pooled[j] == marked[j]
    requires forall j :: j in a <==> j in pooled || (j == Description && Description in a)
    requires forall j :: j in pooled && j != Description ==> a[j] == pooled[j]
    ensures AttributesKept(m, a)
  {
    forall k | k in m && !Computed(k) && !PriorDefaulted(k)
      ensures k in a && a[k] == m[k]
    {
      assert k in marked && k != AgentPoolId && k != Description;
      assert pooled[k] == marked[k];
    }
  }

  lemma AttributeStepsComputed(m: map<AttrName, Val>, marked: map<AttrName, Val>, pooled: map<AttrName, Val>, a: map<AttrName, Val>)
    requires forall k :: k in marked <==> k in m || Computed(k)
    requires forall k :: Computed(k) ==> marked[k] == NullToUnknown(Get(m, k))
    requires forall j :: j in pooled <==> j in marked || (j == AgentPoolId && AgentPoolId in pooled)
    requires forall j :: j in marked && j != AgentPoolId ==> pooled[j] == marked[j]
    requires forall j :: j in a <==> j in pooled || (j == Description && Description in a)
    requires forall j :: j in pooled && j != Description ==> a[j] == pooled[j]
    ensures ComputedRule(m, a)
  {
    PlanKeysApart();
    forall k | Computed(k)
      ensures Get(a, k) == NullToUnknown(Get(m, k))
    {
      assert k in marked && k != AgentPoolId && k != Description;
      assert a[k] == pooled[k] == marked[k];
    }
  }

  /** agent_pool_id and description pass the computed step untouched, and
      each is then set by its own prior-state step only. */
  lemma AttributeStepsPrior(m: map<AttrName, Val>, before: map<AttrName, Val>, marked: map<AttrName, Val>,
                            pooled: map<AttrName, Val>, a: map<AttrName, Val>)
    requires forall k :: k in marked <==> k in m || Computed(k)
    requires forall k :: k in m && !Computed(k) ==> marked[k] == m[k]
    requires PriorDefault(AgentPoolId, Get(marked, AgentPoolId), before) == Ok(Get(pooled, AgentPoolId))
    requires forall j :: j in pooled <==> j in marked || (j == AgentPoolId && AgentPoolId in pooled)
    requires forall j :: j in marked && j != AgentPoolId ==> pooled[j] == marked[j]
    requires PriorDefault(Description, Get(pooled, Description), before) == Ok(Get(a, Description))
    requires forall j :: j in a <==> j in pooled || (j == Description && Description in a)
    requires forall j :: j in pooled && j != Description ==> a[j] == pooled[j]
    ensures PriorRule(m, before, a)
  {
    PlanKeysApart();
    assert Get(marked, AgentPoolId) == Get(m, AgentPoolId);
    assert Get(a, AgentPoolId) == Get(pooled, AgentPoolId);
    assert Get(pooled, Description) == Get(m, Description);
  }

  /** Attributes that need no rewriting pass the attribute step unchanged. */
  lemma AttributesPlannedFixed(m: map<AttrName, Val>, before: map<AttrName, Val>)
    requires forall k :: Computed(k) ==> !Get(m, k).Null?
    requires PriorDefault(AgentPoolId, Get(m, AgentPoolId), before) == Ok(Get(m, AgentPoolId))
    requires PriorDefault(Description, Get(m, Description), before) == Ok(Get(m, Description))
    ensures AttributesPlanned(m, before) == Ok(m)
  {
    MarkedUnknown(m);
    PlanKeysApart();
    DefaultedFromPriorRules(m, AgentPoolId, before);
    DefaultedFromPriorRules(m, Description, before);
  }

  /** The attribute step, one rule after the other. */
  method PlanAttributes(m: map<AttrName, Val>, before: map<AttrName, Val>) returns (r: Result<map<AttrName, Val>, Diag>)
    ensures r == AttributesPlanned(m, before)
  {
    var marked := MarkUnknown(m);
    var withPool := DefaultFromPrior(marked, AgentPoolId, before);
    if withPool.Err? {
      return Err(withPool.error);
    }
    r := DefaultFromPrior(withPool.value, Description, before);
  }

  /** The rules Plan follows, attribute by attribute, from the proposed
      attributes m and the prior ones to the planned ones p: computed
      attributes null-to-Unknown, agent_pool_id and description by
      PriorDefault, a known, non-null vcs_repo by PlanVcs, everything else
      kept, and no attribute outside the schema added. */
  predicate PlanRules(m: map<AttrName, Val>, before: map<AttrName, Val>, p: map<AttrName, Val>) {
    && PlanKeys(m, p)
    && PlanKept(m, p)
    && ComputedRule(m, p)
    && PriorRule(m, before, p)
    && VcsRule(m, before, p)
  }

  /** Plan adds schema attributes only. */
  predicate PlanKeys(m: map<AttrName, Val>, p: map<AttrName, Val>) {
    && m.Keys <= p.Keys
    && (forall k :: k in p && k !in m ==> WorkspaceKey(k))
  }

  /** Plan keeps every attribute no rule rewrites as proposed. */
  predicate PlanKept(m: map<AttrName, Val>, p: map<AttrName, Val>) {
    forall k :: k in m && !Rewritten(k) ==> k in p && p[k] == m[k]
  }

  /** The vcs_repo rule: a known, non-null block is planned by PlanVcs, any
      other is left as proposed. */
  predicate VcsRule(m: map<AttrName, Val>, before: map<AttrName, Val>, p: map<AttrName, Val>) {
    var vcs := Get(m, VcsRepoBlock);
    && (KnownNonNull(vcs) ==> PlanVcs(vcs, before) == Ok(Get(p, VcsRepoBlock)))
    && (!KnownNonNull(vcs) ==> Get(p, VcsRepoBlock) == vcs)
  }

  /** The vcs_repo step completes the rules: the block planned by PlanVcs,
      or left as proposed when unknown or null. */
  lemma VcsStepRules(m: map<AttrName, Val>, before: map<AttrName, Val>, a: map<AttrName, Val>, p: map<AttrName, Val>)
    requires AttributeRules(m, before, a)
    requires KnownNonNull(Get(m, VcsRepoBlock)) ==>
      PlanVcs(Get(m, VcsRepoBlock), before).Ok? && p == a[VcsRepoBlock := PlanVcs(Get(m, VcsRepoBlock), before).value]
    requires !KnownNonNull(Get(m, VcsRepoBlock)) ==> p == a
    ensures PlanRules(m, before, p)
  {
    PlanKeysApart();
    assert forall k :: k != VcsRepoBlock ==> (k in p <==> k in a) && (k in a ==> p[k] == a[k]);
    assert VcsRepoBlock in m ==> VcsRepoBlock in p;
    VcsStepKeys(m, a, p);
    VcsStepValues(m, a, p);
    assert Get(p, AgentPoolId) == Get(a, AgentPoolId) && Get(p, Description) == Get(a, Description);
  }

  /** The attributes the vcs_repo step may add. */
  lemma VcsStepKeys(m: map<AttrName, Val>, a: map<AttrName, Val>, p: map<AttrName, Val>)
    requires AttributeKeys(m, a)
    requires forall k :: k != VcsRepoBlock ==> (k in p <==> k in a)
    requires VcsRepoBlock in m ==> VcsRepoBlock in p
    ensures PlanKeys(m, p)
  {
  }

  /** The values the vcs_repo step leaves: all but vcs_repo as the
      attribute step left them. */
  lemma VcsStepValues(m: map<AttrName, Val>, a: map<AttrName, Val>, p: map<AttrName, Val>)
    requires m.Keys <= a.Keys
    requires AttributesKept(m, a)
    requires ComputedRule(m, a)
    requires forall k :: k != VcsRepoBlock ==> (k in p <==> k in a) && (k in a ==> p[k] == a[k])
    ensures PlanKept(m, p)
    ensures ComputedRule(m, p)
  {
  }

  /** Whatever follows the rules has the planned shape. */
  lemma PlanRulesPlanned(m: map<AttrName, Val>, before: map<AttrName, Val>, p: map<AttrName, Val>)
    requires PlanRules(m, before, p)
    ensures Planned(Obj(p), before)
  {
    RulesComputedPlanned(m, p);
    RulesPriorPlanned(m, before, p);
    RulesVcsPlanned(m, before, p);
  }

  lemma RulesVcsPlanned(m: map<AttrName, Val>, before: map<AttrName, Val>, p: map<AttrName, Val>)
    requires VcsRule(m, before, p)
    ensures VcsPlanned(Get(p, VcsRepoBlock), before)
  {
    PlanVcsRules(Get(m, VcsRepoBlock), before);
  }

  lemma RulesComputedPlanned(m: map<AttrName, Val>, p: map<AttrName, Val>)
    requires ComputedRule(m, p)
    ensures ComputedPlanned(p)
  {
    forall k | Computed(k)
      ensures !Get(p, k).Null?
    {
      assert Get(p, k) == NullToUnknown(Get(m, k));
    }
  }

  lemma RulesPriorPlanned(m: map<AttrName, Val>, before: map<AttrName, Val>, p: map<AttrName, Val>)
    requires PriorRule(m, before, p)
    ensures PriorPlanned(p, before)
  {
    forall k | PriorDefaulted(k)
      ensures !Get(p, k).Null? || (AsString(Get(before, k)).Some? && AsString(Get(before, k)).value != "")
    {
      assert k == AgentPoolId || k == Description;
    }
  }

  /** An attribute set of the planned shape meets the conditions under which
      each rule leaves it as it is. */
  lemma PlannedUnchanged(m: map<AttrName, Val>, before: map<AttrName, Val>)
    requires Planned(Obj(m), before)
    ensures forall k :: Computed(k) ==> !Get(m, k).Null?
    ensures PriorDefault(AgentPoolId, Get(m, AgentPoolId), before) == Ok(Get(m, AgentPoolId))
    ensures PriorDefault(Description, Get(m, Description), before) == Ok(Get(m, Description))
    ensures KnownNonNull(Get(m, VcsRepoBlock)) ==> PlanVcs(Get(m, VcsRepoBlock), before) == Ok(Get(m, VcsRepoBlock))
  {
    assert PriorDefaulted(AgentPoolId) && PriorDefaulted(Description);
    if KnownNonNull(Get(m, VcsRepoBlock)) {
      PlanVcsFixed(Get(m, VcsRepoBlock), before);
    }
  }

  /** What PlanResourceChange answers for a proposed and a prior state. */
  function PlanReply(proposed: Val, prior: Val): Reply {
    match AsMap(proposed)
    case None => Fail(Diag(UnexpectedStateFormat, []))
    case Some(m) =>
      match AsMap(prior)
      case None => Fail(Diag(UnexpectedPriorStateFormat, []))
      case Some(before) =>
        match AttributesPlanned(m, before)
        case Err(e) => Fail(e)
        case Ok(a) =>
          var vcs := Get(m, VcsRepoBlock);
          if !KnownNonNull(vcs) then Done(Obj(a))
          else
            match PlanVcs(vcs, before)
            case Err(e) => Fail(e)
            case Ok(nv) => Done(Obj(a[VcsRepoBlock := nv]))
  }

  /** The errors of Plan, in the order it meets them: a proposal or prior
      state that is not an object, then agent_pool_id's, description's and
      vcs_repo's prior-state rules. */
  lemma PlanReplyErrors(proposed: Val, prior: Val)
    ensures var r := PlanReply(proposed, prior);
      && (AsMap(proposed).None? ==> r == Fail(Diag(UnexpectedStateFormat, [])))
      && (AsMap(proposed).Some? && AsMap(prior).None? ==> r == Fail(Diag(UnexpectedPriorStateFormat, [])))
      && (AsMap(proposed).Some? && AsMap(prior).Some? ==>
            var m := AsMap(proposed).value;
            var before := AsMap(prior).value;
            var pool := PriorDefault(AgentPoolId, Get(m, AgentPoolId), before);
            var description := PriorDefault(Description, Get(m, Description), before);
            var vcs := Get(m, VcsRepoBlock);
            && (pool.Err? ==> r == Fail(pool.error))
            && (pool.Ok? && description.Err? ==> r == Fail(description.error))
            && (pool.Ok? && description.Ok? && KnownNonNull(vcs) && PlanVcs(vcs, before).Err? ==> r == Fail(PlanVcs(vcs, before).error))
            && (pool.Ok? && description.Ok? && (KnownNonNull(vcs) ==> PlanVcs(vcs, before).Ok?) ==> r.Done?))
  {
    if AsMap(proposed).Some? && AsMap(prior).Some? {
      AttributesPlannedErrors(AsMap(proposed).value, AsMap(prior).value);
    }
  }

  /** A state Plan answers follows the rules, attribute by attribute. */
  lemma PlanReplyRules(proposed: Val, prior: Val)
    requires PlanReply(proposed, prior).Done?
    ensures PlanReply(proposed, prior).state.Obj?
    ensures PlanRules(AsMap(proposed).value, AsMap(prior).value, PlanReply(proposed, prior).state.attrs)
  {
    var m, before := AsMap(proposed).value, AsMap(prior).value;
    AttributesPlannedRules(m, before);
    VcsStepRules(m, before, AttributesPlanned(m, before).value, PlanReply(proposed, prior).state.attrs);
  }

  /** A state Plan answers has the planned shape. */
  lemma PlanReplyPlanned(proposed: Val, prior: Val)
    requires PlanReply(proposed, prior).Done?
    ensures Planned(PlanReply(proposed, prior).state, AsMap(prior).value)
  {
    PlanReplyRules(proposed, prior);
    PlanRulesPlanned(AsMap(proposed).value, AsMap(prior).value, PlanReply(proposed, prior).state.attrs);
  }

  /** Writing back the value a map already holds changes nothing. */
  lemma UpdateSame(m: map<AttrName, Val>, k: AttrName)
    requires k in m
    ensures m[k := m[k]] == m
  {
  }

  /** A proposal every rule leaves as it is is planned to itself. */
  lemma PlanReplyFixed(m: map<AttrName, Val>, before: map<AttrName, Val>)
    requires forall k :: Computed(k) ==> !Get(m, k).Null?
    requires PriorDefault(AgentPoolId, Get(m, AgentPoolId), before) == Ok(Get(m, AgentPoolId))
    requires PriorDefault(Description, Get(m, Description), before) == Ok(Get(m, Description))
    requires KnownNonNull(Get(m, VcsRepoBlock)) ==> PlanVcs(Get(m, VcsRepoBlock), before) == Ok(Get(m, VcsRepoBlock))
    ensures PlanReply(Obj(m), Obj(before)) == Done(Obj(m))
  {
    AttributesPlannedFixed(m, before);
    assert AsMap(Obj(m)) == Some(m) && AsMap(Obj(before)) == Some(before);
    var vcs := Get(m, VcsRepoBlock);
    if KnownNonNull(vcs) {
      assert VcsRepoBlock in m && vcs == m[VcsRepoBlock];
      UpdateSame(m, VcsRepoBlock);
      assert PlanReply(Obj(m), Obj(before)) == Done(Obj(m[VcsRepoBlock := vcs]));
    }
  }

  /** Planning a plan changes nothing. */
  lemma PlanReplyIdempotent(proposed: Val, prior: Val)
    requires AsMap(prior).Some? && Planned(proposed, AsMap(prior).value)
    ensures PlanReply(proposed, prior) == Done(proposed)
  {
    var m, before := proposed.attrs, AsMap(prior).value;
    PlannedUnchanged(m, before);
    PlanReplyFixed(m, before);
    assert PlanReply(proposed, prior) == PlanReply(Obj(m), Obj(before));
  }

  /** PlanResourceChange: null computed attributes become Unknown,
      agent_pool_id and description follow the prior-state rule, a known,
      non-null vcs_repo is planned by its own rule, and name, queue_all_runs
      and every other attribute are proposed unchanged (PlanReplyErrors,
      PlanReplyRules, PlanReplyPlanned, PlanReplyIdempotent). */
  method PlanResourceChange(proposed: Val, prior: Val) returns (r: Reply)
    ensures r == PlanReply(proposed, prior)
  {
    var values := AsMap(proposed);
    if values.None? {
      return Fail(Diag(UnexpectedStateFormat, []));
    }
    var oldValues := AsMap(prior);
    if oldValues.None? {
      return Fail(Diag(UnexpectedPriorStateFormat, []));
    }
    var m, before := values.value, oldValues.value;
    var attributes := PlanAttributes(m, before);
    if attributes.Err? {
      return Fail(attributes.error);
    }
    var newState := attributes.value;
    var vcs := Get(m, VcsRepoBlock);
    if KnownNonNull(vcs) {
      var newVcs := PlanVcsBlock(vcs, before);
      if newVcs.Err? {
        return Fail(newVcs.error);
      }
      newState := newState[VcsRepoBlock := newVcs.value];
    }
    r := Done(Obj(newState));
  }
  /** The trigger-prefix conversion of Apply: every element must convert to
      a string; the error is the position of the first that does not. */
  function StringsOf(items: seq<Val>): (r: Result<seq<string>, nat>)
    ensures r.Ok? <==> forall i :: 0 <= i < |items| ==> AsString(items[i]).Some?
    ensures r.Ok? ==> |r.value| == |items| && forall i :: 0 <= i < |items| ==> AsString(items[i]) == Some(r.value[i])
    ensures r.Err? ==> (r.error < |items| && AsString(items[r.error]).None? &&
      forall i :: 0 <= i < r.error ==> AsString(items[i]).Some?)
    decreases |items|
  {
    if items == [] then Ok([])
    else
      match AsString(items[0])
      case None => Err(0)
      case Some(s) =>
        match StringsOf(items[1..])
        case Err(pos) => Err(pos + 1)
        case Ok(rest) => Ok([s] + rest)
  }

  /** Written prefixes convert back to themselves. */
  lemma StringsOfStrValues(ps: seq<string>)
    ensures StringsOf(StrValues(ps)) == Ok(ps)
  {
    var r := StringsOf(StrValues(ps));
    assert r.Ok?;
    assert r.value == ps;
  }

  /** Apply's trigger_prefixes: sent only when known; a null list sends an
      empty one. */
  function PrefixesFrom(v: Val): (r: Result<Option<seq<string>>, Diag>)
    ensures r.Err? ==> r.error.summary == UnexpectedPlannedStateFormat
    ensures !IsKnown(v) ==> r == Ok(None)
    ensures IsKnown(v) && AsList(v).None? ==> r == Err(Diag(UnexpectedPlannedStateFormat, [Attr(TriggerPrefixes)]))
    ensures IsKnown(v) && AsList(v).Some? && StringsOf(AsList(v).value).Err? ==>
      r == Err(Diag(UnexpectedPlannedStateFormat, [Attr(TriggerPrefixes), Index(StringsOf(AsList(v).value).error)]))
    ensures r.Ok? && IsKnown(v) ==> r.value == Some(StringsOf(AsList(v).value).value)
  {
    if !IsKnown(v) then Ok(None)
    else
      match AsList(v)
      case None => Err(Diag(UnexpectedPlannedStateFormat, [Attr(TriggerPrefixes)]))
      case Some(items) =>
        match StringsOf(items)
        case Err(pos) => Err(Diag(UnexpectedPlannedStateFormat, [Attr(TriggerPrefixes), Index(pos)]))
        case Ok(ps) => Ok(Some(ps))
  }

  /** Apply's vcs_repo conversion: the block must convert to a map; the
      branch is read only when known; the other three always. */
  function VcsFrom(pm: map<AttrName, Val>): (r: Result<VcsRepo, Diag>)
    ensures r.Err? ==> r.error.summary == UnexpectedPlannedStateFormat
    ensures AsMap(Get(pm, VcsRepoBlock)).None? ==> r == Err(Diag(UnexpectedPlannedStateFormat, [Attr(VcsRepoBlock)]))
    ensures r.Ok? ==>
      var vcs := AsMap(Get(pm, VcsRepoBlock)).value;
      && (IsKnown(Get(vcs, Branch)) ==> AsString(Get(vcs, Branch)) == Some(r.value.branch))
      && (!IsKnown(Get(vcs, Branch)) ==> r.value.branch == "")
      && AsString(Get(vcs, OauthTokenId)) == Some(r.value.oauthTokenId)
      && AsString(Get(vcs, Identifier)) == Some(r.value.identifier)
      && AsBool(Get(vcs, IngressSubmodules)) == Some(r.value.ingressSubmodules)
  {
    var vcs :- Converted(AsMap(Get(pm, VcsRepoBlock)), UnexpectedPlannedStateFormat, [Attr(VcsRepoBlock)]);
    var branchVal := Get(vcs, Branch);
    var branch :- Converted(if IsKnown(branchVal) then AsString(branchVal) else Some(""),
      UnexpectedPlannedStateFormat, [Attr(VcsRepoBlock), Attr(Branch)]);
    var oauth :- Converted(AsString(Get(vcs, OauthTokenId)), UnexpectedPlannedStateFormat, [Attr(VcsRepoBlock), Attr(OauthTokenId)]);
    var identifier :- Converted(AsString(Get(vcs, Identifier)), UnexpectedPlannedStateFormat, [Attr(VcsRepoBlock), Attr(Identifier)]);
    var ingress :- Converted(AsBool(Get(vcs, IngressSubmodules)), UnexpectedPlannedStateFormat, [Attr(VcsRepoBlock), Attr(IngressSubmodules)]);
    Ok(VcsRepo(oauth, branch, ingress, identifier))
  }

  /** The conversion of an attribute read only when known (null reads as the
      zero value). */
  function KnownString(v: Val): Option<string> {
    if IsKnown(v) then AsString(v) else Some("")
  }

  /** An optional conversion wrapped as a Go pointer. */
  function Pointer(o: Option<bool>): Option<Option<bool>> {
    if o.None? then None else Some(Some(o.value))
  }

  /** How the first six request fields follow the plan: name and
      agent_pool_id always converted; allow_destroy_plan, auto_apply and
      description only when known and non-null; execution_mode whenever
      known. */
  predicate HeadSent(pm: map<AttrName, Val>, w: TerraformWorkspace) {
    && AsString(Get(pm, Name)) == Some(w.name)
    && AsString(Get(pm, AgentPoolId)) == Some(w.agentPoolId)
    && (w.allowDestroyPlan.Some? <==> KnownNonNull(Get(pm, AllowDestroyPlan)))
    && (w.allowDestroyPlan.Some? ==> AsBool(Get(pm, AllowDestroyPlan)) == w.allowDestroyPlan)
    && BoolOrZero(Get(pm, AutoApply)) == Some(w.autoApply)
    && StringOrZero(Get(pm, Description)) == Some(w.description)
    && KnownString(Get(pm, ExecutionMode)) == Some(w.executionMode)
  }

  /** How the remaining request fields follow the plan: queue_all_runs
      always converted; file_triggers_enabled only when known and non-null;
      speculative_enabled, terraform_version, trigger_prefixes and
      working_directory whenever known; vcs_repo by VcsFrom. */
  predicate TailSent(pm: map<AttrName, Val>, w: TerraformWorkspace) {
    && AsBool(Get(pm, QueueAllRuns)) == Some(w.queueAllRuns)
    && (w.fileTriggersEnabled.Some? <==> KnownNonNull(Get(pm, FileTriggersEnabled)))
    && (w.fileTriggersEnabled.Some? ==> AsBool(Get(pm, FileTriggersEnabled)) == w.fileTriggersEnabled)
    && (w.speculativeEnabled.Some? <==> IsKnown(Get(pm, SpeculativeEnabled)))
    && (w.speculativeEnabled.Some? ==> AsBool(Get(pm, SpeculativeEnabled)) == w.speculativeEnabled)
    && (w.triggerPrefixes.Some? <==> IsKnown(Get(pm, TriggerPrefixes)))
    && (w.triggerPrefixes.Some? ==> (AsList(Get(pm, TriggerPrefixes)).Some? &&
          StringsOf(AsList(Get(pm, TriggerPrefixes)).value) == Ok(w.triggerPrefixes.value)))
    && KnownString(Get(pm, TerraformVersion)) == Some(w.terraformVersion)
    && KnownString(Get(pm, WorkingDirectory)) == Some(w.workingDirectory)
    && VcsFrom(pm) == Ok(w.vcsRepo)
  }

  /** The workspace a plan asks Apply to send: every field as the plan says,
      and no ID or source. */
  predicate Sent(pm: map<AttrName, Val>, w: TerraformWorkspace) {
    && w.id == "" && w.sourceName == "" && w.sourceUrl == ""
    && HeadSent(pm, w)
    && TailSent(pm, w)
  }

  /** A null speculative_enabled is sent as false, and a null
      trigger_prefixes as an empty list. */
  lemma SentNulls(pm: map<AttrName, Val>, w: TerraformWorkspace)
    requires Sent(pm, w)
    ensures Get(pm, SpeculativeEnabled).Null? ==> w.speculativeEnabled == Some(false)
    ensures Get(pm, TriggerPrefixes).Null? ==> w.triggerPrefixes == Some([])
  {
    if Get(pm, TriggerPrefixes).Null? {
      assert StringsOf([]) == Ok([]);
    }
  }

  /** The second half of the Apply request: file_triggers_enabled onwards,
      converted after the first six attributes (given) have converted. */
  function RequestTail(pm: map<AttrName, Val>, name: string, pool: string, allowDestroy: Option<bool>,
                       autoApply: bool, description: string, mode: string): Result<TerraformWorkspace, Diag>
  {
    var fileTriggers := Converted(
      if KnownNonNull(Get(pm, FileTriggersEnabled)) then Pointer(AsBool(Get(pm, FileTriggersEnabled))) else Some(None),
      UnexpectedPlannedStateFormat, [Attr(FileTriggersEnabled)]);
    var queueAll := Converted(AsBool(Get(pm, QueueAllRuns)), UnexpectedPlannedStateFormat, [Attr(QueueAllRuns)]);
    var speculative := Converted(
      if IsKnown(Get(pm, SpeculativeEnabled)) then Pointer(AsBool(Get(pm, SpeculativeEnabled))) else Some(None),
      UnexpectedPlannedStateFormat, [Attr(SpeculativeEnabled)]);
    var version := Converted(KnownString(Get(pm, TerraformVersion)), UnexpectedPlannedStateFormat, [Attr(TerraformVersion)]);
    var prefixes := PrefixesFrom(Get(pm, TriggerPrefixes));
    var directory := Converted(KnownString(Get(pm, WorkingDirectory)), UnexpectedPlannedStateFormat, [Attr(WorkingDirectory)]);
    var vcs := VcsFrom(pm);
    if fileTriggers.Err? then Err(fileTriggers.error)
    else if queueAll.Err? then Err(queueAll.error)
    else if speculative.Err? then Err(speculative.error)
    else if version.Err? then Err(version.error)
    else if prefixes.Err? then Err(prefixes.error)
    else if directory.Err? then Err(directory.error)
    else if vcs.Err? then Err(vcs.error)
    else Ok(TerraformWorkspace(
      id := "", name := name, agentPoolId := pool, allowDestroyPlan := allowDestroy,
      autoApply := autoApply, description := description, executionMode := mode,
      fileTriggersEnabled := fileTriggers.value, sourceName := "", sourceUrl := "", queueAllRuns := queueAll.value,
      speculativeEnabled := speculative.value, terraformVersion := version.value, triggerPrefixes := prefixes.value,
      workingDirectory := directory.value, vcsRepo := vcs.value))
  }

  /** The workspace Apply sends, converted in the source's order, stopping
      at the first attribute that does not convert. The ID is never taken
      from the plan. */
  function RequestFrom(pm: map<AttrName, Val>): Result<TerraformWorkspace, Diag> {
    var name :- Converted(AsString(Get(pm, Name)), UnexpectedPlannedStateFormat, [Attr(Name)]);
    var pool :- Converted(AsString(Get(pm, AgentPoolId)), UnexpectedPlannedStateFormat, [Attr(AgentPoolId)]);
    var allowDestroy :- Converted(
      if KnownNonNull(Get(pm, AllowDestroyPlan)) then Pointer(AsBool(Get(pm, AllowDestroyPlan))) else Some(None),
      UnexpectedPlannedStateFormat, [Attr(AllowDestroyPlan)]);
    var autoApply :- Converted(BoolOrZero(Get(pm, AutoApply)), UnexpectedPlannedStateFormat, [Attr(AutoApply)]);
    var description :- Converted(StringOrZero(Get(pm, Description)), UnexpectedPlannedStateFormat, [Attr(Description)]);
    var mode :- Converted(KnownString(Get(pm, ExecutionMode)), UnexpectedPlannedStateFormat, [Attr(ExecutionMode)]);
    RequestTail(pm, name, pool, allowDestroy, autoApply, description, mode)
  }

  /** The second half of the request keeps the six fields given, sends no
      ID or source, and follows the plan for the rest. */
  lemma RequestTailSent(pm: map<AttrName, Val>, name: string, pool: string, allowDestroy: Option<bool>,
                        autoApply: bool, description: string, mode: string)
    ensures var r := RequestTail(pm, name, pool, allowDestroy, autoApply, description, mode);
      && (r.Err? ==> r.error.summary == UnexpectedPlannedStateFormat)
      && (r.Ok? ==>
            && r.value.id == "" && r.value.sourceName == "" && r.value.sourceUrl == ""
            && r.value.name == name && r.value.agentPoolId == pool && r.value.allowDestroyPlan == allowDestroy
            && r.value.autoApply == autoApply && r.value.description == description && r.value.executionMode == mode
            && TailSent(pm, r.value))
  {
  }

  /** Every conversion failure is reported as an unexpected planned state,
      an unreadable name first; a request that converts is what the plan
      asks for. */
  lemma RequestFromSent(pm: map<AttrName, Val>)
    ensures var r := RequestFrom(pm);
      && (r.Err? ==> r.error.summary == UnexpectedPlannedStateFormat)
      && (AsString(Get(pm, Name)).None? ==> r == Err(Diag(UnexpectedPlannedStateFormat, [Attr(Name)])))
      && (r.Ok? ==> Sent(pm, r.value))
  {
    var name := AsString(Get(pm, Name));
    var pool := AsString(Get(pm, AgentPoolId));
    var allowDestroy := if KnownNonNull(Get(pm, AllowDestroyPlan)) then Pointer(AsBool(Get(pm, AllowDestroyPlan))) else Some(None);
    var autoApply := BoolOrZero(Get(pm, AutoApply));
    var description := StringOrZero(Get(pm, Description));
    var mode := KnownString(Get(pm, ExecutionMode));
    if name.Some? && pool.Some? && allowDestroy.Some? && autoApply.Some? && description.Some? && mode.Some? {
      RequestTailSent(pm, name.value, pool.value, allowDestroy.value, autoApply.value, description.value, mode.value);
    }
  }

  /** The element loop of Apply's trigger_prefixes conversion. */
  method ConvertPrefixes(items: seq<Val>) returns (r: Result<seq<string>, nat>)
    ensures r == StringsOf(items)
  {
    var prefixes: seq<string> := [];
    for pos := 0 to |items|
      invariant |prefixes| == pos
      invariant forall j :: 0 <= j < pos ==> AsString(items[j]) == Some(prefixes[j])
    {
      var prefix := AsString(items[pos]);
      if prefix.None? {
        var e := StringsOf(items).error;
        assert AsString(items[e]).None?;
        return Err(pos);
      }
      prefixes := prefixes + [prefix.value];
    }
    assert StringsOf(items).Ok?;
    assert StringsOf(items).value == prefixes;
    r := Ok(prefixes);
  }

  /** Apply's vcs_repo conversion, attribute by attribute. */
  method BuildVcs(pm: map<AttrName, Val>) returns (r: Result<VcsRepo, Diag>)
    ensures r == VcsFrom(pm)
  {
    var vcsMap := AsMap(Get(pm, VcsRepoBlock));
    if vcsMap.None? {
      return Err(Diag(UnexpectedPlannedStateFormat, [Attr(VcsRepoBlock)]));
    }
    var vcs := vcsMap.value;
    var branch := "";
    if IsKnown(Get(vcs, Branch)) {
      var s := AsString(Get(vcs, Branch));
      if s.None? {
        return Err(Diag(UnexpectedPlannedStateFormat, [Attr(VcsRepoBlock), Attr(Branch)]));
      }
      branch := s.value;
    }
    var oauth := AsString(Get(vcs, OauthTokenId));
    if oauth.None? {
      return Err(Diag(UnexpectedPlannedStateFormat, [Attr(VcsRepoBlock), Attr(OauthTokenId)]));
    }
    var identifier := AsString(Get(vcs, Identifier));
    if identifier.None? {
      return Err(Diag(UnexpectedPlannedStateFormat, [Attr(VcsRepoBlock), Attr(Identifier)]));
    }
    var ingress := AsBool(Get(vcs, IngressSubmodules));
    if ingress.None? {
      return Err(Diag(UnexpectedPlannedStateFormat, [Attr(VcsRepoBlock), Attr(IngressSubmodules)]));
    }
    r := Ok(VcsRepo(oauth.value, branch, ingress.value, identifier.value));
  }

  /** Apply's request, converted attribute by attribute with an early return
      at the first failure. */
  method BuildRequest(pm: map<AttrName, Val>) returns (r: Result<TerraformWorkspace, Diag>)
    ensures r == RequestFrom(pm)
  {
    var name := AsString(Get(pm, Name));
    if name.None? {
      return Err(Diag(UnexpectedPlannedStateFormat, [Attr(Name)]));
    }
    var pool := AsString(Get(pm, AgentPoolId));
    if pool.None? {
      return Err(Diag(UnexpectedPlannedStateFormat, [Attr(AgentPoolId)]));
    }
    var allowDestroy: Option<bool> := None;
    if KnownNonNull(Get(pm, AllowDestroyPlan)) {
      var b := AsBool(Get(pm, AllowDestroyPlan));
      if b.None? {
        return Err(Diag(UnexpectedPlannedStateFormat, [Attr(AllowDestroyPlan)]));
      }
      allowDestroy := Some(b.value);
    }
    var autoApply := false;
    if KnownNonNull(Get(pm, AutoApply)) {
      var b := AsBool(Get(pm, AutoApply));
      if b.None? {
        return Err(Diag(UnexpectedPlannedStateFormat, [Attr(AutoApply)]));
      }
      autoApply := b.value;
    }
    var description := "";
    if KnownNonNull(Get(pm, Description)) {
      var s := AsString(Get(pm, Description));
      if s.None? {
        return Err(Diag(UnexpectedPlannedStateFormat, [Attr(Description)]));
      }
      description := s.value;
    }
    var mode := "";
    if IsKnown(Get(pm, ExecutionMode)) {
      var s := AsString(Get(pm, ExecutionMode));
      if s.None? {
        return Err(Diag(UnexpectedPlannedStateFormat, [Attr(ExecutionMode)]));
      }
      mode := s.value;
    }
    r := BuildRequestTail(pm, name.value, pool.value, allowDestroy, autoApply, description, mode);
  }

  /** The second half of BuildRequest: file_triggers_enabled onwards. */
  method BuildRequestTail(pm: map<AttrName, Val>, name: string, pool: string, allowDestroy: Option<bool>,
                          autoApply: bool, description: string, mode: string) returns (r: Result<TerraformWorkspace, Diag>)
    ensures r == RequestTail(pm, name, pool, allowDestroy, autoApply, description, mode)
  {
    var fileTriggers: Option<bool> := None;
    if KnownNonNull(Get(pm, FileTriggersEnabled)) {
      var b := AsBool(Get(pm, FileTriggersEnabled));
      if b.None? {
        return Err(Diag(UnexpectedPlannedStateFormat, [Attr(FileTriggersEnabled)]));
      }
      fileTriggers := Some(b.value);
    }
    var queueAll := AsBool(Get(pm, QueueAllRuns));
    if queueAll.None? {
      return Err(Diag(UnexpectedPlannedStateFormat, [Attr(QueueAllRuns)]));
    }
    var speculative: Option<bool> := None;
    if IsKnown(Get(pm, SpeculativeEnabled)) {
      var b := AsBool(Get(pm, SpeculativeEnabled));
      if b.None? {
        return Err(Diag(UnexpectedPlannedStateFormat, [Attr(SpeculativeEnabled)]));
      }
      speculative := Some(b.value);
    }
    var version := "";
    if IsKnown(Get(pm, TerraformVersion)) {
      var s := AsString(Get(pm, TerraformVersion));
      if s.None? {
        return Err(Diag(UnexpectedPlannedStateFormat, [Attr(TerraformVersion)]));
      }
      version := s.value;
    }
    var prefixes: Option<seq<string>> := None;
    if IsKnown(Get(pm, TriggerPrefixes)) {
      var items := AsList(Get(pm, TriggerPrefixes));
      if items.None? {
        return Err(Diag(UnexpectedPlannedStateFormat, [Attr(TriggerPrefixes)]));
      }
      var converted := ConvertPrefixes(items.value);
      if converted.Err? {
        return Err(Diag(UnexpectedPlannedStateFormat, [Attr(TriggerPrefixes), Index(converted.error)]));
      }
      prefixes := Some(converted.value);
    }
    var directory := "";
    if IsKnown(Get(pm, WorkingDirectory)) {
      var s := AsString(Get(pm, WorkingDirectory));
      if s.None? {
        return Err(Diag(UnexpectedPlannedStateFormat, [Attr(WorkingDirectory)]));
      }
      directory := s.value;
    }
    var vcs := BuildVcs(pm);
    if vcs.Err? {
      return Err(vcs.error);
    }
    r := Ok(TerraformWorkspace(
      id := "", name := name, agentPoolId := pool, allowDestroyPlan := allowDestroy,
      autoApply := autoApply, description := description, executionMode := mode,
      fileTriggersEnabled := fileTriggers, sourceName := "", sourceUrl := "", queueAllRuns := queueAll.value,
      speculativeEnabled := speculative, terraformVersion := version, triggerPrefixes := prefixes,
      workingDirectory := directory, vcsRepo := vcs.value));
  }

  /** The planned vcs_repo attributes, as Apply reads them after its
      conversion succeeded. */
  function PlannedVcs(pm: map<AttrName, Val>): map<AttrName, Val> {
    if AsMap(Get(pm, VcsRepoBlock)).Some? then AsMap(Get(pm, VcsRepoBlock)).value else map[]
  }

  /** How the attribute groups of the final state partition the schema. */
  lemma MergeKeysApart()
    ensures forall k :: WorkspaceKey(k) <==> k == Id || Copied(k) || ServerDefaulted(k) || k == VcsRepoBlock
    ensures forall k :: Copied(k) ==> !ServerDefaulted(k) && k != Id && k != VcsRepoBlock
    ensures forall k :: ServerDefaulted(k) ==> k != Id && k != VcsRepoBlock
  {
  }

  /** The vcs_repo block of Apply's final state: oauth_token_id, identifier
      and ingress_submodules as planned, the branch as planned when known
      and non-null and as the server returned it otherwise. */
  function MergedVcs(v: map<AttrName, Val>, repo: VcsRepo): (f: Val)
    ensures f.Obj? && f.attrs.Keys == VcsKeys
    ensures f.attrs[OauthTokenId] == Get(v, OauthTokenId)
    ensures f.attrs[Identifier] == Get(v, Identifier)
    ensures f.attrs[IngressSubmodules] == Get(v, IngressSubmodules)
    ensures KnownNonNull(Get(v, Branch)) ==> f.attrs[Branch] == v[Branch]
    ensures !KnownNonNull(Get(v, Branch)) ==> f.attrs[Branch] == Str(repo.branch)
  {
    Obj(map[
      OauthTokenId := Get(v, OauthTokenId),
      Identifier := Get(v, Identifier),
      IngressSubmodules := Get(v, IngressSubmodules),
      Branch := PlanOr(Get(v, Branch), Str(repo.branch))])
  }

  /** The final state of a create or update, for the plan `pm` and the
      workspace `w` the server returned: exactly the schema's attributes;
      the ID the server gave; name, agent_pool_id and queue_all_runs as
      planned; every other attribute as planned when known and non-null and
      otherwise exactly what Read would write for `w`; the vcs_repo block by
      MergedVcs. These clauses fix every attribute, so they determine the
      state. */
  predicate MergedFrom(pm: map<AttrName, Val>, w: TerraformWorkspace, f: Val) {
    && f.Obj?
    && (forall k :: k in f.attrs <==> WorkspaceKey(k))
    && f.attrs[Id] == Str(w.id)
    && (forall k :: Copied(k) ==> f.attrs[k] == Get(pm, k))
    && (forall k :: ServerDefaulted(k) ==> f.attrs[k] == PlanOr(Get(pm, k), Get(WorkspaceState(w).attrs, k)))
    && f.attrs[VcsRepoBlock] == MergedVcs(PlannedVcs(pm), w.vcsRepo)
  }

  /** MergedFrom has at most one solution. */
  lemma MergedFromUnique(pm: map<AttrName, Val>, w: TerraformWorkspace, f: Val, g: Val)
    requires MergedFrom(pm, w, f) && MergedFrom(pm, w, g)
    ensures f == g
  {
    forall k | WorkspaceKey(k)
      ensures f.attrs[k] == g.attrs[k]
    {
      if Copied(k) {
      } else if ServerDefaulted(k) {
      } else {
        assert k == Id || k == VcsRepoBlock;
      }
    }
    assert f.attrs == g.attrs;
  }

  /** One attribute of the final state: the planned value when known and
      non-null, otherwise the server's. */
  method MergeOne(state: map<AttrName, Val>, k: AttrName, planned: Val, remote: Val) returns (r: map<AttrName, Val>)
    ensures r == state[k := PlanOr(planned, remote)]
  {
    if KnownNonNull(planned) {
      r := state[k := planned];
    } else {
      r := state[k := remote];
    }
  }

  /** The vcs_repo block of the final state, built as Apply builds it. */
  method MergeVcsBlock(vcs: map<AttrName, Val>, repo: VcsRepo) returns (v: Val)
    ensures v == MergedVcs(vcs, repo)
  {
    var finalVcs := map[
      OauthTokenId := Get(vcs, OauthTokenId),
      Identifier := Get(vcs, Identifier),
      IngressSubmodules := Get(vcs, IngressSubmodules)];
    finalVcs := MergeOne(finalVcs, Branch, Get(vcs, Branch), Str(repo.branch));
    v := Obj(finalVcs);
  }

  /** The nine plan-or-server attributes of the final state. They take the
      same step each, so they are visited in one loop over MergedOrder. */
  lemma MergedOrderSpansKeys()
    ensures forall k :: k in MergedOrder <==> ServerDefaulted(k)
  {
  }

  method MergeAttributes(base: map<AttrName, Val>, pm: map<AttrName, Val>, server: map<AttrName, Val>) returns (s: map<AttrName, Val>)
    ensures forall k :: k in s <==> k in base || ServerDefaulted(k)
    ensures forall k :: k in base && !ServerDefaulted(k) ==> s[k] == base[k]
    ensures forall k :: ServerDefaulted(k) ==> s[k] == PlanOr(Get(pm, k), Get(server, k))
  {
    MergedOrderSpansKeys();
    s := base;
    for i := 0 to |MergedOrder|
      invariant forall k :: k in s <==> k in base || k in MergedOrder[..i]
      invariant forall k :: k in base && k !in MergedOrder[..i] ==> s[k] == base[k]
      invariant forall k :: k in MergedOrder[..i] ==> s[k] == PlanOr(Get(pm, k), Get(server, k))
    {
      var k := MergedOrder[i];
      assert MergedOrder[..i + 1] == MergedOrder[..i] + [k];
      s := MergeOne(s, k, Get(pm, k), Get(server, k));
    }
    assert MergedOrder[..|MergedOrder|] == MergedOrder;
  }

  /** The attributes Apply's final state starts from: the server's ID and
      the three attributes copied from the plan. */
  function BaseState(pm: map<AttrName, Val>, w: TerraformWorkspace): (b: map<AttrName, Val>)
    ensures forall k :: k in b <==> k == Id || Copied(k)
    ensures b[Id] == Str(w.id)
    ensures forall k :: Copied(k) ==> b[k] == Get(pm, k)
  {
    map[
      Id := Str(w.id),
      Name := Get(pm, Name),
      AgentPoolId := Get(pm, AgentPoolId),
      QueueAllRuns := Get(pm, QueueAllRuns)]
  }

  /** The merge-back steps, as MergeBack takes them, yield MergedFrom. */
  lemma MergeStepsMerged(pm: map<AttrName, Val>, w: TerraformWorkspace, s: map<AttrName, Val>, vcs: Val)
    requires forall k :: k in s <==> k == Id || Copied(k) || ServerDefaulted(k)
    requires s[Id] == Str(w.id)
    requires forall k :: Copied(k) ==> s[k] == Get(pm, k)
    requires forall k :: ServerDefaulted(k) ==> s[k] == PlanOr(Get(pm, k), Get(WorkspaceState(w).attrs, k))
    requires vcs == MergedVcs(PlannedVcs(pm), w.vcsRepo)
    ensures MergedFrom(pm, w, Obj(s[VcsRepoBlock := vcs]))
  {
    MergeKeysApart();
  }

  /** Apply's final state, built attribute by attribute, with the server's
      values built as Read builds them (StateOf, which also runs the
      trigger-prefix loop). */
  method MergeBack(pm: map<AttrName, Val>, w: TerraformWorkspace) returns (f: Val)
    ensures MergedFrom(pm, w, f)
  {
    MergeKeysApart();
    var server := StateOf(w);
    var finalState := BaseState(pm, w);
    finalState := MergeAttributes(finalState, pm, server.attrs);
    var finalVcs := MergeVcsBlock(PlannedVcs(pm), w.vcsRepo);
    MergeStepsMerged(pm, w, finalState, finalVcs);
    finalState := finalState[VcsRepoBlock := finalVcs];
    f := Obj(finalState);
  }

  /** The reply to a create or update: on a server error, the given
      diagnostic; otherwise a state merged from the plan and the workspace
      the server returned. */
  predicate Finished(pm: map<AttrName, Val>, answer: Result<TerraformWorkspace, ClientError>, failure: Summary, r: Reply) {
    if answer.Err? then r == Fail(Diag(failure, [])) else r.Done? && MergedFrom(pm, answer.value, r.state)
  }

  /** ApplyResourceChange. A null plan deletes the workspace named by the
      prior state's `id` (every delete error, not-found included, is
      reported); a non-null plan updates the prior state's workspace, or
      creates one when there is no prior state, and merges the server's
      answer back. */
  method ApplyResourceChange(planned: Val, prior: Val, clients: Option<TerraformRemote>) returns (r: Reply, sent: Call<TerraformWorkspace>)
    ensures clients.None? ==> r == Fail(Diag(ErrorCreatingClient, [])) && sent == NoCall
    ensures clients.Some? && planned.Null? ==>
      match PriorId(prior)
      case Err(e) => r == Fail(e) && sent == NoCall
      case Ok(id) =>
        && sent == DeleteCall(id)
        && (r == Done(Null) <==> clients.value.delete(id).None?)
        && (r != Done(Null) ==> r == Fail(Diag(ErrorDeleting, [])))
    ensures clients.Some? && !planned.Null? && AsMap(planned).None? ==>
      r == Fail(Diag(UnexpectedPlannedStateFormat, [])) && sent == NoCall
    ensures clients.Some? && !planned.Null? && AsMap(planned).Some? ==>
      var pm := AsMap(planned).value;
      match RequestFrom(pm)
      case Err(e) => r == Fail(e) && sent == NoCall
      case Ok(req) =>
        if prior.Null? then
          sent == CreateCall(req) && Finished(pm, clients.value.create(req), ErrorCreating, r)
        else
          match PriorId(prior)
          case Err(e) => r == Fail(e) && sent == NoCall
          case Ok(id) =>
            sent == UpdateCall(req.(id := id)) && Finished(pm, clients.value.update(req.(id := id)), ErrorUpdating, r)
  {
    if clients.None? {
      return Fail(Diag(ErrorCreatingClient, [])), NoCall;
    }
    var remote := clients.value;
    sent := NoCall;
    if planned.Null? {
      var id := PriorId(prior);
      if id.Err? {
        return Fail(id.error), NoCall;
      }
      sent := DeleteCall(id.value);
      var err := remote.delete(id.value);
      if err.Some? {
        return Fail(Diag(ErrorDeleting, [])), sent;
      }
      return Done(Null), sent;
    }
    var plannedState := AsMap(planned);
    if plannedState.None? {
      return Fail(Diag(UnexpectedPlannedStateFormat, [])), NoCall;
    }
    var pm := plannedState.value;
    var req := BuildRequest(pm);
    if req.Err? {
      return Fail(req.error), NoCall;
    }
    var workspace := req.value;
    var answer;
    if !prior.Null? {
      var id := PriorId(prior);
      if id.Err? {
        return Fail(id.error), NoCall;
      }
      workspace := workspace.(id := id.value);
      sent := UpdateCall(workspace);
      answer := remote.update(workspace);
      if answer.Err? {
        return Fail(Diag(ErrorUpdating, [])), sent;
      }
    } else {
      sent := CreateCall(workspace);
      answer := remote.create(workspace);
      if answer.Err? {
        return Fail(Diag(ErrorCreating, [])), sent;
      }
    }
    var finalState := MergeBack(pm, answer.value);
    r := Done(finalState);
  }
}
