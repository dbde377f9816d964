// provider/internal/provider/data_{consul,vault,terraform,nomad}.go: the
// four access-policy data sources. Each Read copies its configuration into
// a policy struct, sets the ID and stores the policy's JSON text under
// `json`. Printing JSON text is the `serialise` parameter.
module SdkData {
  import opened Common
  import opened Records
  import opened Json
  import opened SdkResource

  const ConsulSchema: set<Field> := {ClusterId, Key, Read, Write, Delete, JsonText}
  const VaultSchema: set<Field> := {ClusterId, Key, Read, Write, Delete, JsonText}
  const TerraformSchema: set<Field> := {WorkspaceId, Plan, Apply, OverridePolicies, JsonText}
  const NomadSchema: set<Field> := {ClusterId, SubmitJobs, ReadJobStatus, CancelJobs, JsonText}

  function ConsulPolicyFrom(attrs: map<Field, Data>): ConsulPolicy {
    ConsulPolicy(StringAt(attrs, ClusterId), StringAt(attrs, Key), BoolAt(attrs, Read), BoolAt(attrs, Write),
                 BoolAt(attrs, Delete))
  }

  function VaultPolicyFrom(attrs: map<Field, Data>): VaultPolicy {
    VaultPolicy(StringAt(attrs, ClusterId), StringAt(attrs, Key), BoolAt(attrs, Read), BoolAt(attrs, Write),
                BoolAt(attrs, Delete))
  }

  function TerraformPolicyFrom(attrs: map<Field, Data>): TerraformPolicy {
    TerraformPolicy(StringAt(attrs, WorkspaceId), BoolAt(attrs, Plan), BoolAt(attrs, Apply),
                    BoolAt(attrs, OverridePolicies))
  }

  function NomadPolicyFrom(attrs: map<Field, Data>): NomadPolicy {
    NomadPolicy(StringAt(attrs, ClusterId), BoolAt(attrs, SubmitJobs), BoolAt(attrs, ReadJobStatus),
                BoolAt(attrs, CancelJobs))
  }

  /** The ID of the Consul and Vault data sources: cluster ID, a dot, key. */
  function KeyedId(clusterId: string, key: string): string {
    clusterId + "." + key
  }

  /** Splits an ID at its first dot: the inverse of KeyedId for cluster IDs
      without a dot. An ID without a dot has no key part. */
  function SplitId(id: string): (r: (string, string))
    ensures |r.0| <= |id| && '.' !in r.0
  {
    if id == [] then ("", "")
    else if id[0] == '.' then ("", id[1..])
    else
      var rest := SplitId(id[1..]);
      ([id[0]] + rest.0, rest.1)
  }

  /** The ID ends in "." when the key is empty; otherwise it ends in the key. */
  lemma KeyedIdEnds(clusterId: string, key: string)
    ensures var id := KeyedId(clusterId, key);
      && |id| == |clusterId| + 1 + |key|
      && id[..|clusterId|] == clusterId
      && id[|clusterId|] == '.'
      && id[|clusterId| + 1..] == key
      && (key == "" ==> id[|id| - 1] == '.')
  {
    var id := KeyedId(clusterId, key);
    assert id[..|clusterId|] == clusterId;
    assert id[|clusterId| + 1..] == key;
  }

  /** A cluster ID without a dot can be read back from the ID, with the key. */
  lemma {:induction false} SplitKeyedId(clusterId: string, key: string)
    requires '.' !in clusterId
    ensures SplitId(KeyedId(clusterId, key)) == (clusterId, key)
  {
    if clusterId == [] {
      assert KeyedId(clusterId, key) == ['.'] + key;
    } else {
      assert KeyedId(clusterId, key)[1..] == KeyedId(clusterId[1..], key);
      assert clusterId[0] in clusterId;
      SplitKeyedId(clusterId[1..], key);
      assert [clusterId[0]] + clusterId[1..] == clusterId;
    }
  }

  /** With a dot in the cluster ID two configurations share one ID. */
  lemma KeyedIdCollides()
    ensures KeyedId("a.b", "c") == KeyedId("a", "b.c")
    ensures ("a.b", "c") != ("a", "b.c")
  {
  }

  /** dataAccessPolicyConsulRead: the ID, then `json`. */
  method ReadConsulPolicy(d: ResourceData, serialise: Json -> string)
    modifies d
    ensures var p := ConsulPolicyFrom(old(d.attrs));
      && d.id == KeyedId(p.clusterId, p.key)
      && d.attrs == old(d.attrs) + Kept(map[JsonText := Text(serialise(ConsulPolicyJson(p)))], d.schema)
  {
    var policy := ConsulPolicyFrom(d.attrs);
    var b := serialise(ConsulPolicyJson(policy));
    d.SetId(KeyedId(policy.clusterId, policy.key));
    d.SetAll(map[JsonText := Text(b)]);
  }

  /** dataAccessPolicyVaultRead: the ID, then `json`. */
  method ReadVaultPolicy(d: ResourceData, serialise: Json -> string)
    modifies d
    ensures var p := VaultPolicyFrom(old(d.attrs));
      && d.id == KeyedId(p.clusterId, p.key)
      && d.attrs == old(d.attrs) + Kept(map[JsonText := Text(serialise(VaultPolicyJson(p)))], d.schema)
  {
    var policy := VaultPolicyFrom(d.attrs);
    var b := serialise(VaultPolicyJson(policy));
    d.SetId(KeyedId(policy.clusterId, policy.key));
    d.SetAll(map[JsonText := Text(b)]);
  }

  /** dataAccessPolicyTerraformRead: the workspace ID is the ID. */
  method ReadTerraformPolicy(d: ResourceData, serialise: Json -> string)
    modifies d
    ensures var p := TerraformPolicyFrom(old(d.attrs));
      && d.id == p.workspaceId
      && d.attrs == old(d.attrs) + Kept(map[JsonText := Text(serialise(TerraformPolicyJson(p)))], d.schema)
  {
    var policy := TerraformPolicyFrom(d.attrs);
    var b := serialise(TerraformPolicyJson(policy));
    d.SetId(policy.workspaceId);
    d.SetAll(map[JsonText := Text(b)]);
  }

  /** dataAccessPolicyNomadRead: the cluster ID is the ID. */
  method ReadNomadPolicy(d: ResourceData, serialise: Json -> string)
    modifies d
    ensures var p := NomadPolicyFrom(old(d.attrs));
      && d.id == p.clusterId
      && d.attrs == old(d.attrs) + Kept(map[JsonText := Text(serialise(NomadPolicyJson(p)))], d.schema)
  {
    var policy := NomadPolicyFrom(d.attrs);
    var b := serialise(NomadPolicyJson(policy));
    d.SetId(policy.clusterId);
    d.SetAll(map[JsonText := Text(b)]);
  }

  /** Setting `json` adds that one attribute and changes no other. */
  lemma JsonStored(attrs: map<Field, Data>, schema: set<Field>, text: string)
    requires JsonText in schema
    ensures var a := attrs + Kept(map[JsonText := Text(text)], schema);
      && a.Keys == attrs.Keys + {JsonText}
      && StringAt(a, JsonText) == text
      && (forall k :: k in attrs && k != JsonText ==> a[k] == attrs[k])
  {
    var w := map[JsonText := Text(text)];
    assert Kept(w, schema) == w;
  }

  /** The `json` a Consul data source stores decodes, with a `parse` that
      inverts `serialise`, to the configured policy, and carries `key` only
      when it is non-empty. */
  lemma ConsulJsonReadsBack(attrs: map<Field, Data>, schema: set<Field>, parse: string -> Option<Json>, serialise: Json -> string)
    requires JsonText in schema
    requires forall j :: parse(serialise(j)) == Some(j)
    ensures var p := ConsulPolicyFrom(attrs); var a := attrs + Kept(map[JsonText := Text(serialise(ConsulPolicyJson(p)))], schema);
      && parse(StringAt(a, JsonText)).Some?
      && DecodeConsulPolicy(parse(StringAt(a, JsonText)).value) == Ok(p)
      && Keys(parse(StringAt(a, JsonText)).value.members) ==
           if p.key == "" then ["id", "read", "write", "delete"] else ["id", "key", "read", "write", "delete"]
  {
    var p := ConsulPolicyFrom(attrs);
    var j := ConsulPolicyJson(p);
    JsonStored(attrs, schema, serialise(j));
    assert parse(serialise(j)) == Some(j);
    ConsulPolicyRoundTrip(p);
    ConsulPolicyKeys(p);
  }

  lemma VaultJsonReadsBack(attrs: map<Field, Data>, schema: set<Field>, parse: string -> Option<Json>, serialise: Json -> string)
    requires JsonText in schema
    requires forall j :: parse(serialise(j)) == Some(j)
    ensures var p := VaultPolicyFrom(attrs); var a := attrs + Kept(map[JsonText := Text(serialise(VaultPolicyJson(p)))], schema);
      && parse(StringAt(a, JsonText)).Some?
      && DecodeVaultPolicy(parse(StringAt(a, JsonText)).value) == Ok(p)
      && Keys(parse(StringAt(a, JsonText)).value.members) ==
           if p.key == "" then ["id", "read", "write", "delete"] else ["id", "key", "read", "write", "delete"]
  {
    var p := VaultPolicyFrom(attrs);
    var j := VaultPolicyJson(p);
    JsonStored(attrs, schema, serialise(j));
    assert parse(serialise(j)) == Some(j);
    VaultPolicyRoundTrip(p);
    VaultPolicyKeys(p);
  }

  lemma TerraformJsonReadsBack(attrs: map<Field, Data>, schema: set<Field>, parse: string -> Option<Json>, serialise: Json -> string)
    requires JsonText in schema
    requires forall j :: parse(serialise(j)) == Some(j)
    ensures var p := TerraformPolicyFrom(attrs); var a := attrs + Kept(map[JsonText := Text(serialise(TerraformPolicyJson(p)))], schema);
      && parse(StringAt(a, JsonText)).Some?
      && DecodeTerraformPolicy(parse(StringAt(a, JsonText)).value) == Ok(p)
      && Keys(parse(StringAt(a, JsonText)).value.members) == ["id", "plan", "apply", "overridePolicies"]
  {
    var p := TerraformPolicyFrom(attrs);
    var j := TerraformPolicyJson(p);
    JsonStored(attrs, schema, serialise(j));
    assert parse(serialise(j)) == Some(j);
    TerraformPolicyRoundTrip(p);
  }

  lemma NomadJsonReadsBack(attrs: map<Field, Data>, schema: set<Field>, parse: string -> Option<Json>, serialise: Json -> string)
    requires JsonText in schema
    requires forall j :: parse(serialise(j)) == Some(j)
    ensures var p := NomadPolicyFrom(attrs); var a := attrs + Kept(map[JsonText := Text(serialise(NomadPolicyJson(p)))], schema);
      && parse(StringAt(a, JsonText)).Some?
      && DecodeNomadPolicy(parse(StringAt(a, JsonText)).value) == Ok(p)
  {
    var p := NomadPolicyFrom(attrs);
    var j := NomadPolicyJson(p);
    JsonStored(attrs, schema, serialise(j));
    assert parse(serialise(j)) == Some(j);
    NomadPolicyRoundTrip(p);
  }
}
