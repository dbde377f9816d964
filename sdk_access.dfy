// provider/internal/provider/access.go: the SDK resource dadcorp_access_policy.
// `policy_data` is JSON text; parsing and printing JSON text are left to
// the `parse` and `serialise` parameters.
module SdkAccess {
  import opened Common
  import opened Records
  import opened ClientResponse
  import opened Json
  import opened SdkResource
  import opened ClientAccess
  import TfValues

  /** The policy types the `type` validator accepts. */
  const PolicyTypes: seq<string> := ["terraform", "consul", "nomad", "vault"]

  /** The top-level attributes of the resource schema. */
  const Schema: set<Field> := {PolicyData, Type}

  /** The ValidateDiagFunc of `type`. */
  method ValidateType(v: Data) returns (f: Option<Failure>)
    ensures f.None? <==> v.Text? && v.s in {"terraform", "consul", "nomad", "vault"}
    ensures !v.Text? ==> f == Some(InvalidType)
    ensures v.Text? && f.Some? ==> f == Some(InvalidValue)
  {
    if !v.Text? {
      return Some(InvalidType);
    }
    var found := Listed(PolicyTypes, v.s);
    if found {
      return None;
    }
    return Some(InvalidValue);
  }

  /** The ValidateDiagFunc of `policy_data`: a string holding JSON text. */
  function ValidatePolicyData(v: Data, parse: string -> Option<Json>): (f: Option<Failure>)
    ensures f.None? <==> v.Text? && parse(v.s).Some?
    ensures !v.Text? ==> f == Some(InvalidType)
    ensures v.Text? && f.Some? ==> f == Some(InvalidValue)
  {
    if !v.Text? then Some(InvalidType)
    else if parse(v.s).None? then Some(InvalidValue)
    else None
  }

  /** json.Unmarshal of the policy text into one policy struct. */
  function Decoded<P>(text: string, parse: string -> Option<Json>, decode: Json -> Result<P, DecodeError>): Result<P, Failure> {
    match parse(text)
    case None => Err(PolicyDataNotDecoded)
    case Some(j) =>
      match decode(j)
      case Err(_) => Err(PolicyDataNotDecoded)
      case Ok(p) => Ok(p)
  }

  /** The policy Create (ID "") and Update (`d.Id()`) send: the type
      switch decodes the text into that type's struct, which travels as
      that struct's JSON; any other type fails before the call. */
  function PolicyFrom(id: string, attrs: map<Field, Data>, parse: string -> Option<Json>): Result<AccessPolicy, Failure> {
    var t, text := StringAt(attrs, Type), StringAt(attrs, PolicyData);
    if t == "terraform" then
      var p :- Decoded(text, parse, DecodeTerraformPolicy);
      Ok(AccessPolicy(id, t, TerraformPolicyJson(p)))
    else if t == "vault" then
      var p :- Decoded(text, parse, DecodeVaultPolicy);
      Ok(AccessPolicy(id, t, VaultPolicyJson(p)))
    else if t == "nomad" then
      var p :- Decoded(text, parse, DecodeNomadPolicy);
      Ok(AccessPolicy(id, t, NomadPolicyJson(p)))
    else if t == "consul" then
      var p :- Decoded(text, parse, DecodeConsulPolicy);
      Ok(AccessPolicy(id, t, ConsulPolicyJson(p)))
    else Err(UnknownPolicyType)
  }

  /** The `d.Set` calls after a successful Create, Read or Update: the
      response's type, and its policy data printed as JSON text. */
  function Writes(p: AccessPolicy, serialise: Json -> string): map<Field, Data> {
    map[Type := Text(p.policyType), PolicyData := Text(serialise(p.policyData))]
  }

  /** A type outside the four is refused before any call; a known type is
      refused only when its text does not decode into the type's struct. */
  lemma PolicyFromRules(id: string, attrs: map<Field, Data>, parse: string -> Option<Json>)
    ensures var r, t := PolicyFrom(id, attrs, parse), StringAt(attrs, Type);
      && (r == Err(UnknownPolicyType) <==> t !in PolicyTypes)
      && (r.Err? ==> r.error == UnknownPolicyType || r.error == PolicyDataNotDecoded)
      && (r.Ok? ==> r.value.id == id && r.value.policyType == t)
  {
  }

  /** What a known type sends: the JSON of the struct its text decodes to. */
  lemma PolicyFromSends(id: string, attrs: map<Field, Data>, parse: string -> Option<Json>)
    ensures var r, t, j := PolicyFrom(id, attrs, parse), StringAt(attrs, Type), parse(StringAt(attrs, PolicyData));
      && (t == "terraform" && r.Ok? ==>
            (j.Some? && DecodeTerraformPolicy(j.value).Ok? &&
             r.value.policyData == TerraformPolicyJson(DecodeTerraformPolicy(j.value).value)))
      && (t == "vault" && r.Ok? ==>
            (j.Some? && DecodeVaultPolicy(j.value).Ok? &&
             r.value.policyData == VaultPolicyJson(DecodeVaultPolicy(j.value).value)))
      && (t == "nomad" && r.Ok? ==>
            (j.Some? && DecodeNomadPolicy(j.value).Ok? &&
             r.value.policyData == NomadPolicyJson(DecodeNomadPolicy(j.value).value)))
      && (t == "consul" && r.Ok? ==>
            (j.Some? && DecodeConsulPolicy(j.value).Ok? &&
             r.value.policyData == ConsulPolicyJson(DecodeConsulPolicy(j.value).value)))
  {
  }

  /** A policy whose data is exactly what its type's struct prints to. */
  predicate Canonical(p: AccessPolicy) {
    var j := p.policyData;
    if p.policyType == "terraform" then DecodeTerraformPolicy(j).Ok? && TerraformPolicyJson(DecodeTerraformPolicy(j).value) == j
    else if p.policyType == "vault" then DecodeVaultPolicy(j).Ok? && VaultPolicyJson(DecodeVaultPolicy(j).value) == j
    else if p.policyType == "nomad" then DecodeNomadPolicy(j).Ok? && NomadPolicyJson(DecodeNomadPolicy(j).value) == j
    else if p.policyType == "consul" then DecodeConsulPolicy(j).Ok? && ConsulPolicyJson(DecodeConsulPolicy(j).value) == j
    else false
  }

  /** Every policy the provider sends is canonical. */
  lemma SentIsCanonical(id: string, attrs: map<Field, Data>, parse: string -> Option<Json>)
    ensures PolicyFrom(id, attrs, parse).Ok? ==> Canonical(PolicyFrom(id, attrs, parse).value)
  {
    var r := PolicyFrom(id, attrs, parse);
    if r.Ok? {
      PolicyFromSends(id, attrs, parse);
      var j := parse(StringAt(attrs, PolicyData)).value;
      var t := StringAt(attrs, Type);
      if t == "terraform" {
        TerraformPolicyRoundTrip(DecodeTerraformPolicy(j).value);
      } else if t == "vault" {
        VaultPolicyRoundTrip(DecodeVaultPolicy(j).value);
      } else if t == "nomad" {
        NomadPolicyRoundTrip(DecodeNomadPolicy(j).value);
      } else {
        ConsulPolicyRoundTrip(DecodeConsulPolicy(j).value);
      }
    }
  }

  /** A state refreshed from a canonical policy, printed by a `serialise`
      that `parse` inverts, rebuilds that policy for the next Update. */
  lemma WritesReadBack(attrs: map<Field, Data>, schema: set<Field>, p: AccessPolicy,
                       parse: string -> Option<Json>, serialise: Json -> string)
    requires Schema <= schema
    requires Canonical(p)
    requires parse(serialise(p.policyData)) == Some(p.policyData)
    ensures PolicyFrom(p.id, attrs + Kept(Writes(p, serialise), schema), parse) == Ok(p)
  {
    var a := attrs + Kept(Writes(p, serialise), schema);
    assert StringAt(a, Type) == p.policyType;
    assert StringAt(a, PolicyData) == serialise(p.policyData);
  }

  /** After a successful Create answered with a canonical policy, the ID is
      the response's and an Update straight after sends that policy back. */
  lemma CreateThenUpdate(schema: set<Field>, id: string, attrs: map<Field, Data>, client: Service<AccessPolicy>,
                         parse: string -> Option<Json>, serialise: Json -> string)
    requires Schema <= schema
    ensures var e := Creating(id, attrs, schema, Some(client), PolicyFrom("", attrs, parse),
                              (p: AccessPolicy) => p.id, (p: AccessPolicy) => Writes(p, serialise));
      var r := PolicyFrom("", attrs, parse);
      r.Ok? && e.failure.None? ==>
        var created := client.create(r.value).value;
        Canonical(created) && parse(serialise(created.policyData)) == Some(created.policyData) ==>
          e.id == created.id && PolicyFrom(e.id, e.attrs, parse) == Ok(created)
  {
    var r := PolicyFrom("", attrs, parse);
    if r.Ok? {
      var c := client.create(r.value);
      if c.Ok? && Canonical(c.value) && parse(serialise(c.value.policyData)) == Some(c.value.policyData) {
        WritesReadBack(attrs, schema, c.value, parse, serialise);
      }
    }
  }

  method CreatePolicy(d: ResourceData, client: Option<Service<AccessPolicy>>,
                      parse: string -> Option<Json>, serialise: Json -> string)
    returns (f: Option<Failure>, sent: TfValues.Call<AccessPolicy>)
    modifies d
    ensures Effect(f, sent, d.id, d.attrs) ==
      Creating(old(d.id), old(d.attrs), d.schema, client, PolicyFrom("", old(d.attrs), parse),
               (p: AccessPolicy) => p.id, (p: AccessPolicy) => Writes(p, serialise))
  {
    if client.None? {
      return Some(ClientNotBuilt), TfValues.NoCall;
    }
    var policy := PolicyFrom("", d.attrs, parse);
    if policy.Err? {
      return Some(policy.error), TfValues.NoCall;
    }
    sent := TfValues.CreateCall(policy.value);
    var resp := client.value.create(policy.value);
    if resp.Err? {
      return Some(CallFailed(resp.error)), sent;
    }
    d.SetId(resp.value.id);
    d.SetAll(Writes(resp.value, serialise));
    f := None;
  }

  method ReadPolicy(d: ResourceData, client: Option<Service<AccessPolicy>>, serialise: Json -> string)
    returns (f: Option<Failure>, sent: TfValues.Call<AccessPolicy>)
    modifies d
    ensures Effect(f, sent, d.id, d.attrs) ==
      Reading(old(d.id), old(d.attrs), d.schema, client, (p: AccessPolicy) => Writes(p, serialise))
  {
    if client.None? {
      return Some(ClientNotBuilt), TfValues.NoCall;
    }
    sent := TfValues.GetCall(d.id);
    var resp := client.value.get(d.id);
    if resp.Err? {
      if resp.error == NotFoundError {
        d.SetId("");
        return None, sent;
      }
      return Some(CallFailed(resp.error)), sent;
    }
    d.SetAll(Writes(resp.value, serialise));
    f := None;
  }

  method UpdatePolicy(d: ResourceData, client: Option<Service<AccessPolicy>>,
                      parse: string -> Option<Json>, serialise: Json -> string)
    returns (f: Option<Failure>, sent: TfValues.Call<AccessPolicy>)
    modifies d
    ensures Effect(f, sent, d.id, d.attrs) ==
      Updating(old(d.id), old(d.attrs), d.schema, client, PolicyFrom(old(d.id), old(d.attrs), parse),
               (p: AccessPolicy) => Writes(p, serialise))
  {
    if client.None? {
      return Some(ClientNotBuilt), TfValues.NoCall;
    }
    var policy := PolicyFrom(d.id, d.attrs, parse);
    if policy.Err? {
      return Some(policy.error), TfValues.NoCall;
    }
    sent := TfValues.UpdateCall(policy.value);
    var resp := client.value.update(policy.value);
    if resp.Err? {
      return Some(CallFailed(resp.error)), sent;
    }
    d.SetAll(Writes(resp.value, serialise));
    f := None;
  }

  method DeletePolicy(d: ResourceData, client: Option<Service<AccessPolicy>>)
    returns (f: Option<Failure>, sent: TfValues.Call<AccessPolicy>)
    ensures (f, sent) == Deleting(d.id, client)
  {
    if client.None? {
      return Some(ClientNotBuilt), TfValues.NoCall;
    }
    sent := TfValues.DeleteCall(d.id);
    var err := client.value.delete(d.id);
    f := if err.Some? then Some(CallFailed(err.value)) else None;
  }
}
