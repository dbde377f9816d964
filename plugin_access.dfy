// provider/internal/provider/plugin_access.go: the low-level engine of the
// access-policy resource. The policy data is a dynamic value whose shape
// depends on the policy type: PolicyDataToTerraformValue builds it from the
// server's JSON, and one decoder per type reads it back into a policy
// struct, field by field.
module PluginAccess {
  import opened Common
  import opened Records
  import opened ClientResponse
  import opened TfValues
  import opened Json
  import ClientAccess

  /** The access-policy service calls the engine makes, as oracles. A
      missing client (NewClient failed) is modelled by passing None. */
  datatype AccessRemote = AccessRemote(
    get: string -> Result<ClientAccess.AccessPolicy, ClientError>,
    create: ClientAccess.AccessPolicy -> Result<ClientAccess.AccessPolicy, ClientError>,
    update: ClientAccess.AccessPolicy -> Result<ClientAccess.AccessPolicy, ClientError>,
    delete: string -> Option<ClientError>)

  /** The result of Read and Import. Besides replying, the Go code can
      panic: when the server's policy data is not a JSON object (a failed
      type assertion), or when one of its fields has a JSON type that
      tftypes.NewValue refuses for the attribute. */
  datatype Outcome = Returned(reply: Reply) | Panicked

  /** The four policy kinds. */
  const PolicyTypes: set<string> := {"terraform", "vault", "nomad", "consul"}

  /** The attributes of the resource. */
  const PolicyKeys: set<AttrName> := {Id, Type, PolicyData}

  /** The object shape of each kind's policy data. */
  function Shape(policyType: string): set<AttrName> {
    if policyType == "terraform" then {WorkspaceId, Plan, Apply, OverridePolicies}
    else if policyType == "nomad" then {ClusterId, SubmitJobs, ReadJobStatus, CancelJobs}
    else if policyType == "vault" || policyType == "consul" then {ClusterId, Key, Read, Write, Delete}
    else {}
  }

  // ---- From the server's JSON to the policy_data value ----

  /** Why PolicyDataToTerraformValue yields no value: a policy type outside
      the four kinds (its error return), or a field whose JSON type the
      attribute refuses (tftypes.NewValue panics). */
  datatype ConversionError = UnexpectedPolicyType | InvalidFieldValue

  /** A string attribute built from the JSON member `k`: absent or null is
      a null string; None when the member holds something other than a
      string. */
  function StringValue(data: seq<Member>, k: string): Option<Val> {
    match Lookup(data, k)
    case None => Some(Null)
    case Some(JNull) => Some(Null)
    case Some(JStr(s)) => Some(Str(s))
    case Some(_) => None
  }

  /** A bool attribute built from the JSON member `k`. */
  function BoolValue(data: seq<Member>, k: string): Option<Val> {
    match Lookup(data, k)
    case None => Some(Null)
    case Some(JNull) => Some(Null)
    case Some(JBool(b)) => Some(Bool(b))
    case Some(_) => None
  }

  /** The object the "vault" and "consul" cases build (they are identical). */
  function KeyedPolicyValue(data: seq<Member>): Result<Val, ConversionError> {
    var id, key := StringValue(data, "id"), StringValue(data, "key");
    var rd, wr, del := BoolValue(data, "read"), BoolValue(data, "write"), BoolValue(data, "delete");
    if id.None? || key.None? || rd.None? || wr.None? || del.None? then Err(InvalidFieldValue)
    else Ok(Obj(map[ClusterId := id.value, Key := key.value, Read := rd.value, Write := wr.value, Delete := del.value]))
  }

  /** PolicyDataToTerraformValue: the policy_data object for a policy type
      and the members of the server's JSON policy data. */
  function PolicyDataToTerraformValue(policyType: string, data: seq<Member>): (r: Result<Val, ConversionError>)
    ensures r == Err(UnexpectedPolicyType) <==> policyType !in PolicyTypes
    ensures r.Ok? ==> r.value.Obj? && r.value.attrs.Keys == Shape(policyType)
  {
    if policyType == "terraform" then
      var id, plan := StringValue(data, "id"), BoolValue(data, "plan");
      var apply, ov := BoolValue(data, "apply"), BoolValue(data, "overridePolicies");
      if id.None? || plan.None? || apply.None? || ov.None? then Err(InvalidFieldValue)
      else Ok(Obj(map[WorkspaceId := id.value, Plan := plan.value, Apply := apply.value, OverridePolicies := ov.value]))
    else if policyType == "vault" then KeyedPolicyValue(data)
    else if policyType == "nomad" then
      var id, submit := StringValue(data, "id"), BoolValue(data, "submitJobs");
      var status, cancel := BoolValue(data, "readJobStatus"), BoolValue(data, "cancelJobs");
      if id.None? || submit.None? || status.None? || cancel.None? then Err(InvalidFieldValue)
      else Ok(Obj(map[ClusterId := id.value, SubmitJobs := submit.value, ReadJobStatus := status.value, CancelJobs := cancel.value]))
    else if policyType == "consul" then KeyedPolicyValue(data)
    else Err(UnexpectedPolicyType)
  }

  /** The JSON key "id" becomes workspace_id for a Terraform policy and
      cluster_id for the other kinds; every other attribute takes the JSON
      member of the same name. */
  lemma PolicyDataFields(policyType: string, data: seq<Member>)
    ensures var r := PolicyDataToTerraformValue(policyType, data);
      && (r.Ok? && policyType == "terraform" ==>
            && Some(r.value.attrs[WorkspaceId]) == StringValue(data, "id")
            && Some(r.value.attrs[Plan]) == BoolValue(data, "plan")
            && Some(r.value.attrs[Apply]) == BoolValue(data, "apply")
            && Some(r.value.attrs[OverridePolicies]) == BoolValue(data, "overridePolicies"))
      && (r.Ok? && policyType == "nomad" ==>
            && Some(r.value.attrs[ClusterId]) == StringValue(data, "id")
            && Some(r.value.attrs[SubmitJobs]) == BoolValue(data, "submitJobs")
            && Some(r.value.attrs[ReadJobStatus]) == BoolValue(data, "readJobStatus")
            && Some(r.value.attrs[CancelJobs]) == BoolValue(data, "cancelJobs"))
      && (r.Ok? && (policyType == "vault" || policyType == "consul") ==>
            && Some(r.value.attrs[ClusterId]) == StringValue(data, "id")
            && Some(r.value.attrs[Key]) == StringValue(data, "key")
            && Some(r.value.attrs[Read]) == BoolValue(data, "read")
            && Some(r.value.attrs[Write]) == BoolValue(data, "write")
            && Some(r.value.attrs[Delete]) == BoolValue(data, "delete"))
      && (policyType in PolicyTypes ==> (r.Ok? <==> FieldsConvert(policyType, data)))
  {
  }

  /** Every member the policy type reads has a JSON type its attribute
      accepts. */
  predicate FieldsConvert(policyType: string, data: seq<Member>) {
    if policyType == "terraform" then
      StringValue(data, "id").Some? && BoolValue(data, "plan").Some?
      && BoolValue(data, "apply").Some? && BoolValue(data, "overridePolicies").Some?
    else if policyType == "nomad" then
      StringValue(data, "id").Some? && BoolValue(data, "submitJobs").Some?
      && BoolValue(data, "readJobStatus").Some? && BoolValue(data, "cancelJobs").Some?
    else
      StringValue(data, "id").Some? && StringValue(data, "key").Some?
      && BoolValue(data, "read").Some? && BoolValue(data, "write").Some? && BoolValue(data, "delete").Some?
  }

  // ---- From the policy_data value to a policy struct ----

  /** What a FromTerraform5Value call leaves behind: the receiver as far as
      it was filled, and whether every conversion succeeded. */
  datatype Decoded<T> = Decoded(policy: T, ok: bool)

  /** TerraformPolicy.FromTerraform5Value on receiver `p`: the fields are
      converted in declaration order and each is stored as soon as it
      converts; the first failure ends the call. */
  function TerraformPolicyFrom(p: TerraformPolicy, v: Val): Decoded<TerraformPolicy> {
    match AsMap(v)
    case None => Decoded(p, false)
    case Some(m) =>
      match AsString(Get(m, WorkspaceId))
      case None => Decoded(p, false)
      case Some(id) =>
        var p := p.(workspaceId := id);
        match AsBool(Get(m, Plan))
        case None => Decoded(p, false)
        case Some(plan) =>
          var p := p.(plan := plan);
          match AsBool(Get(m, Apply))
          case None => Decoded(p, false)
          case Some(apply) =>
            var p := p.(apply := apply);
            match AsBool(Get(m, OverridePolicies))
            case None => Decoded(p, false)
            case Some(ov) => Decoded(p.(overridePolicies := ov), true)
  }

  /** VaultPolicy.FromTerraform5Value on receiver `p`. */
  function VaultPolicyFrom(p: VaultPolicy, v: Val): Decoded<VaultPolicy> {
    match AsMap(v)
    case None => Decoded(p, false)
    case Some(m) =>
      match AsString(Get(m, ClusterId))
      case None => Decoded(p, false)
      case Some(id) =>
        var p := p.(clusterId := id);
        match AsString(Get(m, Key))
        case None => Decoded(p, false)
        case Some(key) =>
          var p := p.(key := key);
          match AsBool(Get(m, Read))
          case None => Decoded(p, false)
          case Some(rd) =>
            var p := p.(read := rd);
            match AsBool(Get(m, Write))
            case None => Decoded(p, false)
            case Some(wr) =>
              var p := p.(write := wr);
              match AsBool(Get(m, Delete))
              case None => Decoded(p, false)
              case Some(del) => Decoded(p.(delete := del), true)
  }

  /** NomadPolicy.FromTerraform5Value on receiver `p`. */
  function NomadPolicyFrom(p: NomadPolicy, v: Val): Decoded<NomadPolicy> {
    match AsMap(v)
    case None => Decoded(p, false)
    case Some(m) =>
      match AsString(Get(m, ClusterId))
      case None => Decoded(p, false)
      case Some(id) =>
        var p := p.(clusterId := id);
        match AsBool(Get(m, SubmitJobs))
        case None => Decoded(p, false)
        case Some(submit) =>
          var p := p.(submitJobs := submit);
          match AsBool(Get(m, ReadJobStatus))
          case None => Decoded(p, false)
          case Some(status) =>
            var p := p.(readJobStatus := status);
            match AsBool(Get(m, CancelJobs))
            case None => Decoded(p, false)
            case Some(cancel) => Decoded(p.(cancelJobs := cancel), true)
  }

  /** ConsulPolicy.FromTerraform5Value on receiver `p`. */
  function ConsulPolicyFrom(p: ConsulPolicy, v: Val): Decoded<ConsulPolicy> {
    match AsMap(v)
    case None => Decoded(p, false)
    case Some(m) =>
      match AsString(Get(m, ClusterId))
      case None => Decoded(p, false)
      case Some(id) =>
        var p := p.(clusterId := id);
        match AsString(Get(m, Key))
        case None => Decoded(p, false)
        case Some(key) =>
          var p := p.(key := key);
          match AsBool(Get(m, Read))
          case None => Decoded(p, false)
          case Some(rd) =>
            var p := p.(read := rd);
            match AsBool(Get(m, Write))
            case None => Decoded(p, false)
            case Some(wr) =>
              var p := p.(write := wr);
              match AsBool(Get(m, Delete))
              case None => Decoded(p, false)
              case Some(del) => Decoded(p.(delete := del), true)
  }

  /** The Terraform decoder stops at the first failure: a field is set
      exactly when it and every field before it converted, and keeps the
      receiver's value otherwise. */
  lemma TerraformPolicyFromFields(p: TerraformPolicy, v: Val)
    ensures AsMap(v).None? ==> TerraformPolicyFrom(p, v) == Decoded(p, false)
    ensures AsMap(v).Some? ==>
      var m := AsMap(v).value;
      var id, plan := AsString(Get(m, WorkspaceId)), AsBool(Get(m, Plan));
      var apply, ov := AsBool(Get(m, Apply)), AsBool(Get(m, OverridePolicies));
      var d := TerraformPolicyFrom(p, v);
      && (d.ok <==> id.Some? && plan.Some? && apply.Some? && ov.Some?)
      && d.policy.workspaceId == (if id.Some? then id.value else p.workspaceId)
      && d.policy.plan == (if id.Some? && plan.Some? then plan.value else p.plan)
      && d.policy.apply == (if id.Some? && plan.Some? && apply.Some? then apply.value else p.apply)
      && d.policy.overridePolicies == (if d.ok then ov.value else p.overridePolicies)
  {
  }

  /** The Vault decoder stops at the first failure. */
  lemma VaultPolicyFromFields(p: VaultPolicy, v: Val)
    ensures AsMap(v).None? ==> VaultPolicyFrom(p, v) == Decoded(p, false)
    ensures AsMap(v).Some? ==>
      var m := AsMap(v).value;
      var id, key := AsString(Get(m, ClusterId)), AsString(Get(m, Key));
      var rd, wr, del := AsBool(Get(m, Read)), AsBool(Get(m, Write)), AsBool(Get(m, Delete));
      var d := VaultPolicyFrom(p, v);
      && (d.ok <==> id.Some? && key.Some? && rd.Some? && wr.Some? && del.Some?)
      && d.policy.clusterId == (if id.Some? then id.value else p.clusterId)
      && d.policy.key == (if id.Some? && key.Some? then key.value else p.key)
      && d.policy.read == (if id.Some? && key.Some? && rd.Some? then rd.value else p.read)
      && d.policy.write == (if id.Some? && key.Some? && rd.Some? && wr.Some? then wr.value else p.write)
      && d.policy.delete == (if d.ok then del.value else p.delete)
  {
  }

  /** The Nomad decoder stops at the first failure. */
  lemma NomadPolicyFromFields(p: NomadPolicy, v: Val)
    ensures AsMap(v).None? ==> NomadPolicyFrom(p, v) == Decoded(p, false)
    ensures AsMap(v).Some? ==>
      var m := AsMap(v).value;
      var id, submit := AsString(Get(m, ClusterId)), AsBool(Get(m, SubmitJobs));
      var status, cancel := AsBool(Get(m, ReadJobStatus)), AsBool(Get(m, CancelJobs));
      var d := NomadPolicyFrom(p, v);
      && (d.ok <==> id.Some? && submit.Some? && status.Some? && cancel.Some?)
      && d.policy.clusterId == (if id.Some? then id.value else p.clusterId)
      && d.policy.submitJobs == (if id.Some? && submit.Some? then submit.value else p.submitJobs)
      && d.policy.readJobStatus == (if id.Some? && submit.Some? && status.Some? then status.value else p.readJobStatus)
      && d.policy.cancelJobs == (if d.ok then cancel.value else p.cancelJobs)
  {
  }

  /** The Consul decoder stops at the first failure. */
  lemma ConsulPolicyFromFields(p: ConsulPolicy, v: Val)
    ensures AsMap(v).None? ==> ConsulPolicyFrom(p, v) == Decoded(p, false)
    ensures AsMap(v).Some? ==>
      var m := AsMap(v).value;
      var id, key := AsString(Get(m, ClusterId)), AsString(Get(m, Key));
      var rd, wr, del := AsBool(Get(m, Read)), AsBool(Get(m, Write)), AsBool(Get(m, Delete));
      var d := ConsulPolicyFrom(p, v);
      && (d.ok <==> id.Some? && key.Some? && rd.Some? && wr.Some? && del.Some?)
      && d.policy.clusterId == (if id.Some? then id.value else p.clusterId)
      && d.policy.key == (if id.Some? && key.Some? then key.value else p.key)
      && d.policy.read == (if id.Some? && key.Some? && rd.Some? then rd.value else p.read)
      && d.policy.write == (if id.Some? && key.Some? && rd.Some? && wr.Some? then wr.value else p.write)
      && d.policy.delete == (if d.ok then del.value else p.delete)
  {
  }

  /** TerraformPolicy.FromTerraform5Value, assigning the receiver's fields
      one at a time. */
  method FillTerraformPolicy(p: TerraformPolicy, v: Val) returns (d: Decoded<TerraformPolicy>)
    ensures d == TerraformPolicyFrom(p, v)
  {
    var q := p;
    var m := AsMap(v);
    if m.None? {
      return Decoded(q, false);
    }
    var id := AsString(Get(m.value, WorkspaceId));
    if id.None? {
      return Decoded(q, false);
    }
    q := q.(workspaceId := id.value);
    var plan := AsBool(Get(m.value, Plan));
    if plan.None? {
      return Decoded(q, false);
    }
    q := q.(plan := plan.value);
    var apply := AsBool(Get(m.value, Apply));
    if apply.None? {
      return Decoded(q, false);
    }
    q := q.(apply := apply.value);
    var ov := AsBool(Get(m.value, OverridePolicies));
    if ov.None? {
      return Decoded(q, false);
    }
    q := q.(overridePolicies := ov.value);
    return Decoded(q, true);
  }

  /** VaultPolicy.FromTerraform5Value. */
  method FillVaultPolicy(p: VaultPolicy, v: Val) returns (d: Decoded<VaultPolicy>)
    ensures d == VaultPolicyFrom(p, v)
  {
    var q := p;
    var m := AsMap(v);
    if m.None? {
      return Decoded(q, false);
    }
    var id := AsString(Get(m.value, ClusterId));
    if id.None? {
      return Decoded(q, false);
    }
    q := q.(clusterId := id.value);
    var key := AsString(Get(m.value, Key));
    if key.None? {
      return Decoded(q, false);
    }
    q := q.(key := key.value);
    var rd := AsBool(Get(m.value, Read));
    if rd.None? {
      return Decoded(q, false);
    }
    q := q.(read := rd.value);
    var wr := AsBool(Get(m.value, Write));
    if wr.None? {
      return Decoded(q, false);
    }
    q := q.(write := wr.value);
    var del := AsBool(Get(m.value, Delete));
    if del.None? {
      return Decoded(q, false);
    }
    q := q.(delete := del.value);
    return Decoded(q, true);
  }

  /** NomadPolicy.FromTerraform5Value. */
  method FillNomadPolicy(p: NomadPolicy, v: Val) returns (d: Decoded<NomadPolicy>)
    ensures d == NomadPolicyFrom(p, v)
  {
    var q := p;
    var m := AsMap(v);
    if m.None? {
      return Decoded(q, false);
    }
    var id := AsString(Get(m.value, ClusterId));
    if id.None? {
      return Decoded(q, false);
    }
    q := q.(clusterId := id.value);
    var submit := AsBool(Get(m.value, SubmitJobs));
    if submit.None? {
      return Decoded(q, false);
    }
    q := q.(submitJobs := submit.value);
    var status := AsBool(Get(m.value, ReadJobStatus));
    if status.None? {
      return Decoded(q, false);
    }
    q := q.(readJobStatus := status.value);
    var cancel := AsBool(Get(m.value, CancelJobs));
    if cancel.None? {
      return Decoded(q, false);
    }
    q := q.(cancelJobs := cancel.value);
    return Decoded(q, true);
  }

  /** ConsulPolicy.FromTerraform5Value. */
  method FillConsulPolicy(p: ConsulPolicy, v: Val) returns (d: Decoded<ConsulPolicy>)
    ensures d == ConsulPolicyFrom(p, v)
  {
    var q := p;
    var m := AsMap(v);
    if m.None? {
      return Decoded(q, false);
    }
    var id := AsString(Get(m.value, ClusterId));
    if id.None? {
      return Decoded(q, false);
    }
    q := q.(clusterId := id.value);
    var key := AsString(Get(m.value, Key));
    if key.None? {
      return Decoded(q, false);
    }
    q := q.(key := key.value);
    var rd := AsBool(Get(m.value, Read));
    if rd.None? {
      return Decoded(q, false);
    }
    q := q.(read := rd.value);
    var wr := AsBool(Get(m.value, Write));
    if wr.None? {
      return Decoded(q, false);
    }
    q := q.(write := wr.value);
    var del := AsBool(Get(m.value, Delete));
    if del.None? {
      return Decoded(q, false);
    }
    q := q.(delete := del.value);
    return Decoded(q, true);
  }

  // ---- Round trips: server JSON -> policy_data -> policy struct ----

  /** The policy_data objects the four kinds' JSON becomes. */
  function TerraformPolicyValue(p: TerraformPolicy): Val {
    Obj(map[WorkspaceId := Str(p.workspaceId), Plan := Bool(p.plan), Apply := Bool(p.apply),
            OverridePolicies := Bool(p.overridePolicies)])
  }

  function NomadPolicyValue(p: NomadPolicy): Val {
    Obj(map[ClusterId := Str(p.clusterId), SubmitJobs := Bool(p.submitJobs),
            ReadJobStatus := Bool(p.readJobStatus), CancelJobs := Bool(p.cancelJobs)])
  }

  /** An empty key is left out of the JSON, so it comes back null. */
  function KeyValue(key: string): Val {
    if key == "" then Null else Str(key)
  }

  function KeyedValue(id: string, key: string, rd: bool, wr: bool, del: bool): Val {
    Obj(map[ClusterId := Str(id), Key := KeyValue(key), Read := Bool(rd), Write := Bool(wr), Delete := Bool(del)])
  }

  /** The JSON the client marshals for each kind becomes the object above. */
  lemma TerraformJsonValue(p: TerraformPolicy)
    ensures PolicyDataToTerraformValue("terraform", TerraformPolicyJson(p).members) == Ok(TerraformPolicyValue(p))
  {
    var ms := TerraformPolicyJson(p).members;
    LookupUnique(ms, "id", 0);
    LookupUnique(ms, "plan", 1);
    LookupUnique(ms, "apply", 2);
    LookupUnique(ms, "overridePolicies", 3);
  }

  lemma NomadJsonValue(p: NomadPolicy)
    ensures PolicyDataToTerraformValue("nomad", NomadPolicyJson(p).members) == Ok(NomadPolicyValue(p))
  {
    var ms := NomadPolicyJson(p).members;
    LookupUnique(ms, "id", 0);
    LookupUnique(ms, "submitJobs", 1);
    LookupUnique(ms, "readJobStatus", 2);
    LookupUnique(ms, "cancelJobs", 3);
  }

  /** The members of a Vault or Consul policy's JSON hold each field, `key`
      reading as null when the empty key was left out. */
  lemma KeyedMembers(ms: seq<Member>, id: string, key: string, rd: bool, wr: bool, del: bool)
    requires ms == [Member("id", JStr(id))] + KeyMember(key) +
                   [Member("read", JBool(rd)), Member("write", JBool(wr)), Member("delete", JBool(del))]
    ensures KeyedPolicyValue(ms) == Ok(KeyedValue(id, key, rd, wr, del))
  {
    var n := |KeyMember(key)|;
    LookupUnique(ms, "id", 0);
    if key == "" {
      LookupAbsent(ms, "key");
    } else {
      LookupUnique(ms, "key", 1);
    }
    LookupUnique(ms, "read", 1 + n);
    LookupUnique(ms, "write", 2 + n);
    LookupUnique(ms, "delete", 3 + n);
  }

  /** Each decoder reads its kind's object back into any receiver. */
  lemma TerraformValueDecodes(z: TerraformPolicy, p: TerraformPolicy)
    ensures TerraformPolicyFrom(z, TerraformPolicyValue(p)) == Decoded(p, true)
  {
  }

  lemma NomadValueDecodes(z: NomadPolicy, p: NomadPolicy)
    ensures NomadPolicyFrom(z, NomadPolicyValue(p)) == Decoded(p, true)
  {
  }

  lemma VaultValueDecodes(z: VaultPolicy, p: VaultPolicy)
    ensures VaultPolicyFrom(z, KeyedValue(p.clusterId, p.key, p.read, p.write, p.delete)) == Decoded(p, true)
  {
  }

  lemma ConsulValueDecodes(z: ConsulPolicy, p: ConsulPolicy)
    ensures ConsulPolicyFrom(z, KeyedValue(p.clusterId, p.key, p.read, p.write, p.delete)) == Decoded(p, true)
  {
  }

  /** A policy the client marshals to JSON, turned into its policy_data
      object and decoded again into any receiver, is recovered whole. */
  lemma TerraformDataRoundTrip(z: TerraformPolicy, p: TerraformPolicy)
    ensures var r := PolicyDataToTerraformValue("terraform", TerraformPolicyJson(p).members);
      r.Ok? && TerraformPolicyFrom(z, r.value) == Decoded(p, true)
  {
    TerraformJsonValue(p);
    TerraformValueDecodes(z, p);
  }

  lemma NomadDataRoundTrip(z: NomadPolicy, p: NomadPolicy)
    ensures var r := PolicyDataToTerraformValue("nomad", NomadPolicyJson(p).members);
      r.Ok? && NomadPolicyFrom(z, r.value) == Decoded(p, true)
  {
    NomadJsonValue(p);
    NomadValueDecodes(z, p);
  }

  lemma VaultDataRoundTrip(z: VaultPolicy, p: VaultPolicy)
    ensures var r := PolicyDataToTerraformValue("vault", VaultPolicyJson(p).members);
      r.Ok? && VaultPolicyFrom(z, r.value) == Decoded(p, true)
  {
    KeyedMembers(VaultPolicyJson(p).members, p.clusterId, p.key, p.read, p.write, p.delete);
    VaultValueDecodes(z, p);
  }

  lemma ConsulDataRoundTrip(z: ConsulPolicy, p: ConsulPolicy)
    ensures var r := PolicyDataToTerraformValue("consul", ConsulPolicyJson(p).members);
      r.Ok? && ConsulPolicyFrom(z, r.value) == Decoded(p, true)
  {
    KeyedMembers(ConsulPolicyJson(p).members, p.clusterId, p.key, p.read, p.write, p.delete);
    ConsulValueDecodes(z, p);
  }

  // ---- The resource RPCs ----

  /** ValidateResourceTypeConfig: a known `type` must convert to a string.
      Whether it names one of the four kinds is not checked here. */
  function ValidateResourceTypeConfig(config: Val): (d: Option<Diag>)
    ensures AsMap(config).None? ==> d == Some(Diag(UnexpectedConfigFormat, []))
    ensures AsMap(config).Some? ==>
      (d.None? <==> !IsKnown(Get(AsMap(config).value, Type)) || AsString(Get(AsMap(config).value, Type)).Some?)
    ensures AsMap(config).Some? && d.Some? ==> d == Some(Diag(UnexpectedConfigFormat, [Attr(Type)]))
  {
    match AsMap(config)
    case None => Some(Diag(UnexpectedConfigFormat, []))
    case Some(values) =>
      var t := Get(values, Type);
      if IsKnown(t) && AsString(t).None? then Some(Diag(UnexpectedConfigFormat, [Attr(Type)])) else None
  }

  /** Validation accepts any string type, even one Apply will refuse. */
  lemma ValidateAcceptsAnyType(config: map<AttrName, Val>, s: string)
    requires Get(config, Type) == Str(s)
    ensures ValidateResourceTypeConfig(Obj(config)) == None
  {
  }

  /** The planned state: a null `id` becomes Unknown; nothing else changes. */
  function PlannedState(m: map<AttrName, Val>): map<AttrName, Val> {
    m[Id := NullToUnknown(Get(m, Id))]
  }

  /** PlanResourceChange. */
  method PlanResourceChange(proposed: Val) returns (r: Reply)
    ensures AsMap(proposed).None? ==> r == Fail(Diag(UnexpectedStateFormat, []))
    ensures AsMap(proposed).Some? ==> r == Done(Obj(PlannedState(AsMap(proposed).value)))
  {
    var newState := AsMap(proposed);
    if newState.None? {
      return Fail(Diag(UnexpectedStateFormat, []));
    }
    var s := newState.value;
    if Get(s, Id).Null? {
      s := s[Id := Unknown];
    }
    r := Done(Obj(s));
  }

  /** Plan only touches `id`, which it turns from null into Unknown; `type`
      and `policy_data` pass through unchanged, and re-planning the planned
      state changes nothing. */
  lemma PlannedStateRules(m: map<AttrName, Val>)
    ensures PlannedState(m).Keys == m.Keys + {Id}
    ensures PlannedState(m)[Id] == (if Get(m, Id).Null? then Unknown else m[Id])
    ensures forall k :: k in m && k != Id ==> PlannedState(m)[k] == m[k]
    ensures PlannedState(PlannedState(m)) == PlannedState(m)
  {
    var p := PlannedState(m);
    assert p[Id := NullToUnknown(Get(p, Id))] == p;
  }

  /** The policy Apply sends for a plan: the `type` string and the planned
      policy_data decoded by that type's decoder into a zero struct; any
      other type is refused on policy_data. The ID is not taken from the
      plan. */
  function RequestFrom(pm: map<AttrName, Val>): Result<ClientAccess.AccessPolicy, Diag> {
    match AsString(Get(pm, Type))
    case None => Err(Diag(UnexpectedPlannedStateFormat, [Attr(Type)]))
    case Some(policyType) =>
      var bad := Err(Diag(UnexpectedPolicyDataFormat, [Attr(PolicyData)]));
      var data := Get(pm, PolicyData);
      if policyType == "terraform" then
        var d := TerraformPolicyFrom(TerraformPolicy("", false, false, false), data);
        if d.ok then Ok(ClientAccess.AccessPolicy("", policyType, TerraformPolicyJson(d.policy))) else bad
      else if policyType == "vault" then
        var d := VaultPolicyFrom(VaultPolicy("", "", false, false, false), data);
        if d.ok then Ok(ClientAccess.AccessPolicy("", policyType, VaultPolicyJson(d.policy))) else bad
      else if policyType == "nomad" then
        var d := NomadPolicyFrom(NomadPolicy("", false, false, false), data);
        if d.ok then Ok(ClientAccess.AccessPolicy("", policyType, NomadPolicyJson(d.policy))) else bad
      else if policyType == "consul" then
        var d := ConsulPolicyFrom(ConsulPolicy("", "", false, false, false), data);
        if d.ok then Ok(ClientAccess.AccessPolicy("", policyType, ConsulPolicyJson(d.policy))) else bad
      else bad
  }

  /** A type outside the four kinds is refused on policy_data; a request
      that is built carries no ID, the planned type, and policy data that
      the server's JSON round trip turns back into the planned policy_data
      fields. */
  lemma RequestFromRules(pm: map<AttrName, Val>)
    ensures var r := RequestFrom(pm);
      && (AsString(Get(pm, Type)).None? ==> r == Err(Diag(UnexpectedPlannedStateFormat, [Attr(Type)])))
      && (AsString(Get(pm, Type)).Some? && AsString(Get(pm, Type)).value !in PolicyTypes ==>
            r == Err(Diag(UnexpectedPolicyDataFormat, [Attr(PolicyData)])))
      && (r.Err? ==> r.error.summary in {UnexpectedPlannedStateFormat, UnexpectedPolicyDataFormat})
      && (r.Ok? ==> r.value.id == "" && Some(r.value.policyType) == AsString(Get(pm, Type))
                    && r.value.policyType in PolicyTypes && r.value.policyData.JObj?)
  {
  }

  /** The request's policy data, converted back as Read converts it,
      decodes to the same policy as the planned policy_data did. */
  lemma RequestDataRoundTrip(pm: map<AttrName, Val>)
    requires RequestFrom(pm).Ok?
    ensures var req := RequestFrom(pm).value;
      var v := PolicyDataToTerraformValue(req.policyType, req.policyData.members);
      var data := Get(pm, PolicyData);
      && v.Ok?
      && (req.policyType == "terraform" ==>
            TerraformPolicyFrom(TerraformPolicy("", false, false, false), v.value)
            == TerraformPolicyFrom(TerraformPolicy("", false, false, false), data))
      && (req.policyType == "vault" ==>
            VaultPolicyFrom(VaultPolicy("", "", false, false, false), v.value)
            == VaultPolicyFrom(VaultPolicy("", "", false, false, false), data))
      && (req.policyType == "nomad" ==>
            NomadPolicyFrom(NomadPolicy("", false, false, false), v.value)
            == NomadPolicyFrom(NomadPolicy("", false, false, false), data))
      && (req.policyType == "consul" ==>
            ConsulPolicyFrom(ConsulPolicy("", "", false, false, false), v.value)
            == ConsulPolicyFrom(ConsulPolicy("", "", false, false, false), data))
  {
    var req := RequestFrom(pm).value;
    var data := Get(pm, PolicyData);
    if req.policyType == "terraform" {
      var p := TerraformPolicyFrom(TerraformPolicy("", false, false, false), data).policy;
      assert req.policyData == TerraformPolicyJson(p);
      TerraformJsonValue(p);
      TerraformValueDecodes(TerraformPolicy("", false, false, false), p);
    } else if req.policyType == "vault" {
      var p := VaultPolicyFrom(VaultPolicy("", "", false, false, false), data).policy;
      assert req.policyData == VaultPolicyJson(p);
      KeyedMembers(req.policyData.members, p.clusterId, p.key, p.read, p.write, p.delete);
      VaultValueDecodes(VaultPolicy("", "", false, false, false), p);
    } else if req.policyType == "nomad" {
      var p := NomadPolicyFrom(NomadPolicy("", false, false, false), data).policy;
      assert req.policyData == NomadPolicyJson(p);
      NomadJsonValue(p);
      NomadValueDecodes(NomadPolicy("", false, false, false), p);
    } else {
      var p := ConsulPolicyFrom(ConsulPolicy("", "", false, false, false), data).policy;
      assert req.policyData == ConsulPolicyJson(p);
      KeyedMembers(req.policyData.members, p.clusterId, p.key, p.read, p.write, p.delete);
      ConsulValueDecodes(ConsulPolicy("", "", false, false, false), p);
    }
  }


  /** Apply's type switch, decoding the planned policy_data with the
      decoder the type selects. */
  method BuildRequest(pm: map<AttrName, Val>) returns (r: Result<ClientAccess.AccessPolicy, Diag>)
    ensures r == RequestFrom(pm)
  {
    var policyType := AsString(Get(pm, Type));
    if policyType.None? {
      return Err(Diag(UnexpectedPlannedStateFormat, [Attr(Type)]));
    }
    var t := policyType.value;
    var data := Get(pm, PolicyData);
    var bad := Err(Diag(UnexpectedPolicyDataFormat, [Attr(PolicyData)]));
    if t == "terraform" {
      var d := FillTerraformPolicy(TerraformPolicy("", false, false, false), data);
      if !d.ok {
        return bad;
      }
      r := Ok(ClientAccess.AccessPolicy("", t, TerraformPolicyJson(d.policy)));
    } else if t == "vault" {
      var d := FillVaultPolicy(VaultPolicy("", "", false, false, false), data);
      if !d.ok {
        return bad;
      }
      r := Ok(ClientAccess.AccessPolicy("", t, VaultPolicyJson(d.policy)));
    } else if t == "nomad" {
      var d := FillNomadPolicy(NomadPolicy("", false, false, false), data);
      if !d.ok {
        return bad;
      }
      r := Ok(ClientAccess.AccessPolicy("", t, NomadPolicyJson(d.policy)));
    } else if t == "consul" {
      var d := FillConsulPolicy(ConsulPolicy("", "", false, false, false), data);
      if !d.ok {
        return bad;
      }
      r := Ok(ClientAccess.AccessPolicy("", t, ConsulPolicyJson(d.policy)));
    } else {
      r := bad;
    }
  }

  /** Apply's final state: the ID the server returned, and `type` and
      `policy_data` exactly as planned. */
  function FinalState(pm: map<AttrName, Val>, answer: ClientAccess.AccessPolicy): Val {
    Obj(map[Id := Str(answer.id), Type := Get(pm, Type), PolicyData := Get(pm, PolicyData)])
  }

  /** The reply to a create or update. */
  function Finish(pm: map<AttrName, Val>, answer: Result<ClientAccess.AccessPolicy, ClientError>, failure: Summary): Reply {
    if answer.Err? then Fail(Diag(failure, [])) else Done(FinalState(pm, answer.value))
  }

  /** ApplyResourceChange. A null plan deletes the policy named by the prior
      state's `id` (every delete error, not-found included, is reported); a
      non-null plan updates the prior state's policy, or creates one when
      there is no prior state. A type outside the four kinds fails before
      any remote call. */
  method ApplyResourceChange(planned: Val, prior: Val, clients: Option<AccessRemote>) returns (r: Reply, sent: Call<ClientAccess.AccessPolicy>)
    ensures clients.None? ==> r == Fail(Diag(ErrorCreatingClient, [])) && sent == NoCall
    ensures clients.Some? && planned.Null? ==>
      match PriorId(prior)
      case Err(e) => r == Fail(e) && sent == NoCall
      case Ok(id) =>
        && sent == DeleteCall(id)
        && (r == Done(Null) <==> clients.value.delete(id).None?)
        && (r != Done(Null) ==> r == Fail(Diag(ErrorDeleting, [])))
    ensures clients.Some? && !planned.Null? && AsMap(planned).None? ==>
      r == Fail(Diag(UnexpectedPlannedStateFormat, [])) && sent == NoCall
    ensures clients.Some? && !planned.Null? && AsMap(planned).Some? ==>
      var pm := AsMap(planned).value;
      match RequestFrom(pm)
      case Err(e) => r == Fail(e) && sent == NoCall
      case Ok(req) =>
        if prior.Null? then
          sent == CreateCall(req) && r == Finish(pm, clients.value.create(req), ErrorCreating)
        else
          match PriorId(prior)
          case Err(e) => r == Fail(e) && sent == NoCall
          case Ok(id) =>
            sent == UpdateCall(req.(id := id)) && r == Finish(pm, clients.value.update(req.(id := id)), ErrorUpdating)
  {
    if clients.None? {
      return Fail(Diag(ErrorCreatingClient, [])), NoCall;
    }
    var remote := clients.value;
    sent := NoCall;
    if planned.Null? {
      var id := PriorId(prior);
      if id.Err? {
        return Fail(id.error), NoCall;
      }
      sent := DeleteCall(id.value);
      var err := remote.delete(id.value);
      if err.Some? {
        return Fail(Diag(ErrorDeleting, [])), sent;
      }
      return Done(Null), sent;
    }
    var plannedState := AsMap(planned);
    if plannedState.None? {
      return Fail(Diag(UnexpectedPlannedStateFormat, [])), NoCall;
    }
    var pm := plannedState.value;
    var req := BuildRequest(pm);
    if req.Err? {
      return Fail(req.error), NoCall;
    }
    var policy := req.value;
    var answer;
    if !prior.Null? {
      var id := PriorId(prior);
      if id.Err? {
        return Fail(id.error), NoCall;
      }
      policy := policy.(id := id.value);
      sent := UpdateCall(policy);
      answer := remote.update(policy);
      if answer.Err? {
        return Fail(Diag(ErrorUpdating, [])), sent;
      }
    } else {
      sent := CreateCall(policy);
      answer := remote.create(policy);
      if answer.Err? {
        return Fail(Diag(ErrorCreating, [])), sent;
      }
    }
    var finalState := map[Id := Str(answer.value.id), Type := Get(pm, Type), PolicyData := Get(pm, PolicyData)];
    r := Done(Obj(finalState));
  }

  /** A successful create or update yields exactly the three attributes:
      the server's ID and the planned type and policy data, verbatim. */
  lemma FinishRules(pm: map<AttrName, Val>, answer: Result<ClientAccess.AccessPolicy, ClientError>, failure: Summary)
    ensures var r := Finish(pm, answer, failure);
      && (r.Done? <==> answer.Ok?)
      && (r.Done? ==> r.state.Obj? && r.state.attrs.Keys == PolicyKeys
                      && r.state.attrs[Id] == Str(answer.value.id)
                      && r.state.attrs[Type] == Get(pm, Type)
                      && r.state.attrs[PolicyData] == Get(pm, PolicyData))
  {
  }

  /** The state Read and Import write for a policy the server returned. */
  function PolicyState(policy: ClientAccess.AccessPolicy): Outcome {
    match policy.policyData
    case JObj(data) =>
      (match PolicyDataToTerraformValue(policy.policyType, data)
       case Err(UnexpectedPolicyType) => Returned(Fail(Diag(ErrorParsingPolicyData, [])))
       case Err(InvalidFieldValue) => Panicked
       case Ok(v) => Returned(Done(Obj(map[Id := Str(policy.id), Type := Str(policy.policyType), PolicyData := v]))))
    case _ => Panicked
  }

  /** A policy of an unknown type cannot be read back; one of the four
      kinds whose data fields have the right JSON types yields the three
      attributes, with policy data of that kind's shape. */
  lemma PolicyStateRules(policy: ClientAccess.AccessPolicy)
    requires policy.policyData.JObj?
    ensures policy.policyType !in PolicyTypes ==> PolicyState(policy) == Returned(Fail(Diag(ErrorParsingPolicyData, [])))
    ensures policy.policyType in PolicyTypes ==>
      (PolicyState(policy).Returned? <==> FieldsConvert(policy.policyType, policy.policyData.members))
    ensures PolicyState(policy).Returned? && PolicyState(policy).reply.Done? ==>
      var s := PolicyState(policy).reply.state;
      && s.Obj? && s.attrs.Keys == PolicyKeys
      && s.attrs[Id] == Str(policy.id) && s.attrs[Type] == Str(policy.policyType)
      && s.attrs[PolicyData].Obj? && s.attrs[PolicyData].attrs.Keys == Shape(policy.policyType)
  {
    PolicyDataFields(policy.policyType, policy.policyData.members);
  }

  /** ReadResource: a policy the server no longer has is dropped from the
      state. */
  function ReadResource(current: Val, clients: Option<AccessRemote>): (r: Outcome)
    ensures AsMap(current).None? ==> r == Returned(Fail(Diag(UnexpectedStateFormat, [])))
    ensures AsMap(current).Some? ==>
      match AsString(Get(AsMap(current).value, Id))
      case None => r == Returned(Fail(Diag(UnexpectedStateFormat, [Attr(Id)])))
      case Some(id) =>
        && (clients.None? ==> r == Returned(Fail(Diag(ErrorCreatingClient, []))))
        && (clients.Some? && clients.value.get(id) == Err(NotFoundError) ==> r == Returned(Done(Null)))
        && (clients.Some? && clients.value.get(id).Err? && clients.value.get(id) != Err(NotFoundError) ==>
              r == Returned(Fail(Diag(ErrorRetrieving, []))))
        && (clients.Some? && clients.value.get(id).Ok? ==> r == PolicyState(clients.value.get(id).value))
  {
    match AsMap(current)
    case None => Returned(Fail(Diag(UnexpectedStateFormat, [])))
    case Some(state) =>
      match AsString(Get(state, Id))
      case None => Returned(Fail(Diag(UnexpectedStateFormat, [Attr(Id)])))
      case Some(id) =>
        if clients.None? then Returned(Fail(Diag(ErrorCreatingClient, [])))
        else
          match clients.value.get(id)
          case Err(NotFoundError) => Returned(Done(Null))
          case Err(_) => Returned(Fail(Diag(ErrorRetrieving, [])))
          case Ok(policy) => PolicyState(policy)
  }

  /** ImportResourceState: every Get error, not-found included, is
      reported. */
  function ImportResourceState(id: string, clients: Option<AccessRemote>): (r: Outcome)
    ensures clients.None? ==> r == Returned(Fail(Diag(ErrorCreatingClient, [])))
    ensures clients.Some? && clients.value.get(id).Err? ==> r == Returned(Fail(Diag(ErrorRetrieving, [])))
    ensures clients.Some? && clients.value.get(id).Ok? ==> r == PolicyState(clients.value.get(id).value)
  {
    if clients.None? then Returned(Fail(Diag(ErrorCreatingClient, [])))
    else
      match clients.value.get(id)
      case Err(_) => Returned(Fail(Diag(ErrorRetrieving, [])))
      case Ok(policy) => PolicyState(policy)
  }

  /** Read and Import agree on a policy the server has; on one it does not,
      Read drops the resource while Import fails. */
  lemma ReadAgreesWithImport(id: string, current: Val, remote: AccessRemote)
    requires current.Obj? && Get(current.attrs, Id) == Str(id)
    ensures remote.get(id).Ok? ==> ReadResource(current, Some(remote)) == ImportResourceState(id, Some(remote))
    ensures remote.get(id) == Err(NotFoundError) ==>
      ReadResource(current, Some(remote)) == Returned(Done(Null))
      && ImportResourceState(id, Some(remote)) == Returned(Fail(Diag(ErrorRetrieving, [])))
  {
  }
}
