// JSON values as RFC 8259 describes them, and the encoding/json mapping of
// the four access-policy structs (client/access_policies.go:34-61). Objects
// keep their members in order; text encoding and parsing stay outside the
// model and appear as function parameters where the provider uses them.
module Json {
  import opened Common
  import opened Records

  datatype Json =
    | JNull
    | JBool(b: bool)
    | JNum(n: int)
    | JStr(s: string)
    | JArr(items: seq<Json>)
    | JObj(members: seq<Member>)

  datatype Member = Member(key: string, value: Json)

  /** The value a decoded `map[string]interface{}` holds under key `k`:
      the last member with exactly that key. */
  function Lookup(members: seq<Member>, k: string): Option<Json> {
    if members == [] then None
    else if members[|members| - 1].key == k then Some(members[|members| - 1].value)
    else Lookup(members[..|members| - 1], k)
  }

  /** With a unique key, the map holds that key's member. */
  lemma {:induction false} LookupUnique(members: seq<Member>, k: string, i: int)
    requires 0 <= i < |members| && members[i].key == k
    requires forall j :: 0 <= j < |members| && j != i ==> members[j].key != k
    ensures Lookup(members, k) == Some(members[i].value)
  {
    if i < |members| - 1 {
      LookupUnique(members[..|members| - 1], k, i);
    }
  }

  /** A key no member carries is absent from the map. */
  lemma {:induction false} LookupAbsent(members: seq<Member>, k: string)
    requires forall j :: 0 <= j < |members| ==> members[j].key != k
    ensures Lookup(members, k) == None
  {
    if members != [] {
      LookupAbsent(members[..|members| - 1], k);
    }
  }

  function Keys(members: seq<Member>): (r: seq<string>)
    ensures |r| == |members|
    ensures forall i :: 0 <= i < |members| ==> r[i] == members[i].key
  {
    if members == [] then [] else [members[0].key] + Keys(members[1..])
  }

  datatype DecodeError = TypeMismatch

  // ---- Decoding into struct fields ----

  /** Case folding of one character as the decoder compares a key with an
      ASCII field tag: ASCII letters fold to lower case, and the Kelvin sign
      and the long s fold to k and s, the only other characters that simple
      case folding joins to an ASCII letter. */
  function FoldChar(c: char): char {
    if c == '\U{212A}' then 'k'
    else if c == '\U{017F}' then 's'
    else LowerChar(c)
  }

  /** A member key names the field tagged `name` when the two are equal up
      to case folding. */
  predicate FoldsTo(key: string, name: string) {
    |key| == |name| && forall i :: 0 <= i < |key| ==> FoldChar(key[i]) == FoldChar(name[i])
  }

  /** Decoding into a Go string field, member by member in order: a member
      whose key names the field sets it when it holds a string, leaves it
      as it is when it holds null, and is a type error otherwise (decoding
      goes on, but the error is what Unmarshal returns). Absent, the field
      keeps its zero value "". */
  function StringField(members: seq<Member>, name: string): Result<string, DecodeError> {
    if members == [] then Ok("")
    else
      var before := StringField(members[..|members| - 1], name);
      var m := members[|members| - 1];
      if !FoldsTo(m.key, name) then before
      else match m.value
        case JNull => before
        case JStr(s) => if before.Ok? then Ok(s) else before
        case _ => Err(TypeMismatch)
  }

  /** Decoding into a Go bool field, by the same rule; the zero value is false. */
  function BoolField(members: seq<Member>, name: string): Result<bool, DecodeError> {
    if members == [] then Ok(false)
    else
      var before := BoolField(members[..|members| - 1], name);
      var m := members[|members| - 1];
      if !FoldsTo(m.key, name) then before
      else match m.value
        case JNull => before
        case JBool(b) => if before.Ok? then Ok(b) else before
        case _ => Err(TypeMismatch)
  }

  /** A string field fails to decode exactly when some member naming it
      holds neither a string nor null. */
  lemma {:induction false} StringFieldFails(members: seq<Member>, name: string)
    ensures StringField(members, name).Err? <==>
      exists j :: 0 <= j < |members| && FoldsTo(members[j].key, name) && !members[j].value.JNull? && !members[j].value.JStr?
  {
    if members != [] {
      var init := members[..|members| - 1];
      StringFieldFails(init, name);
      assert forall j :: 0 <= j < |init| ==> init[j] == members[j];
    }
  }

  /** A bool field fails to decode exactly when some member naming it holds
      neither a bool nor null. */
  lemma {:induction false} BoolFieldFails(members: seq<Member>, name: string)
    ensures BoolField(members, name).Err? <==>
      exists j :: 0 <= j < |members| && FoldsTo(members[j].key, name) && !members[j].value.JNull? && !members[j].value.JBool?
  {
    if members != [] {
      var init := members[..|members| - 1];
      BoolFieldFails(init, name);
      assert forall j :: 0 <= j < |init| ==> init[j] == members[j];
    }
  }

  /** When a string field decodes, it holds the last non-null member naming
      it, whatever the letter case of that member's key. */
  lemma {:induction false} StringFieldLast(members: seq<Member>, name: string, j: int)
    requires 0 <= j < |members| && FoldsTo(members[j].key, name) && members[j].value.JStr?
    requires forall l :: j < l < |members| && FoldsTo(members[l].key, name) ==> members[l].value.JNull?
    requires StringField(members, name).Ok?
    ensures StringField(members, name) == Ok(members[j].value.s)
  {
    if j < |members| - 1 {
      StringFieldLast(members[..|members| - 1], name, j);
    }
  }

  /** When a bool field decodes, it holds the last non-null member naming it. */
  lemma {:induction false} BoolFieldLast(members: seq<Member>, name: string, j: int)
    requires 0 <= j < |members| && FoldsTo(members[j].key, name) && members[j].value.JBool?
    requires forall l :: j < l < |members| && FoldsTo(members[l].key, name) ==> members[l].value.JNull?
    requires BoolField(members, name).Ok?
    ensures BoolField(members, name) == Ok(members[j].value.b)
  {
    if j < |members| - 1 {
      BoolFieldLast(members[..|members| - 1], name, j);
    }
  }

  /** With no member naming it, a field keeps its zero value. */
  lemma {:induction false} FieldAbsent(members: seq<Member>, name: string)
    requires forall j :: 0 <= j < |members| ==> !FoldsTo(members[j].key, name)
    ensures StringField(members, name) == Ok("")
    ensures BoolField(members, name) == Ok(false)
  {
    if members != [] {
      FieldAbsent(members[..|members| - 1], name);
    }
  }

  /** The one member naming a string field decodes into it. */
  lemma {:induction false} StringFieldUnique(members: seq<Member>, name: string, i: int, s: string)
    requires 0 <= i < |members| && FoldsTo(members[i].key, name) && members[i].value == JStr(s)
    requires forall j :: 0 <= j < |members| && j != i ==> !FoldsTo(members[j].key, name)
    ensures StringField(members, name) == Ok(s)
  {
    if i < |members| - 1 {
      StringFieldUnique(members[..|members| - 1], name, i, s);
    } else {
      FieldAbsent(members[..i], name);
    }
  }

  /** The one member naming a bool field decodes into it. */
  lemma {:induction false} BoolFieldUnique(members: seq<Member>, name: string, i: int, b: bool)
    requires 0 <= i < |members| && FoldsTo(members[i].key, name) && members[i].value == JBool(b)
    requires forall j :: 0 <= j < |members| && j != i ==> !FoldsTo(members[j].key, name)
    ensures BoolField(members, name) == Ok(b)
  {
    if i < |members| - 1 {
      BoolFieldUnique(members[..|members| - 1], name, i, b);
    } else {
      FieldAbsent(members[..i], name);
    }
  }

  /** The members of an object to decode into a struct; null decodes to the zero struct. */
  function StructMembers(j: Json): Result<seq<Member>, DecodeError> {
    match j
    case JNull => Ok([])
    case JObj(ms) => Ok(ms)
    case _ => Err(TypeMismatch)
  }

  // ---- Marshalling: members in declaration order, `omitempty` honoured ----

  function TerraformPolicyJson(p: TerraformPolicy): Json {
    JObj([Member("id", JStr(p.workspaceId)), Member("plan", JBool(p.plan)),
          Member("apply", JBool(p.apply)), Member("overridePolicies", JBool(p.overridePolicies))])
  }

  /** `key` carries `omitempty`, so an empty key is left out. */
  function KeyMember(key: string): seq<Member> {
    if key == "" then [] else [Member("key", JStr(key))]
  }

  function VaultPolicyJson(p: VaultPolicy): Json {
    JObj([Member("id", JStr(p.clusterId))] + KeyMember(p.key) +
         [Member("read", JBool(p.read)), Member("write", JBool(p.write)), Member("delete", JBool(p.delete))])
  }

  function NomadPolicyJson(p: NomadPolicy): Json {
    JObj([Member("id", JStr(p.clusterId)), Member("submitJobs", JBool(p.submitJobs)),
          Member("readJobStatus", JBool(p.readJobStatus)), Member("cancelJobs", JBool(p.cancelJobs))])
  }

  function ConsulPolicyJson(p: ConsulPolicy): Json {
    JObj([Member("id", JStr(p.clusterId))] + KeyMember(p.key) +
         [Member("read", JBool(p.read)), Member("write", JBool(p.write)), Member("delete", JBool(p.delete))])
  }

  // ---- Unmarshalling into the structs ----

  function DecodeTerraformPolicy(j: Json): Result<TerraformPolicy, DecodeError> {
    var ms :- StructMembers(j);
    var id :- StringField(ms, "id");
    var plan :- BoolField(ms, "plan");
    var apply :- BoolField(ms, "apply");
    var ov :- BoolField(ms, "overridePolicies");
    Ok(TerraformPolicy(id, plan, apply, ov))
  }

  function DecodeVaultPolicy(j: Json): Result<VaultPolicy, DecodeError> {
    var ms :- StructMembers(j);
    var id :- StringField(ms, "id");
    var key :- StringField(ms, "key");
    var rd :- BoolField(ms, "read");
    var wr :- BoolField(ms, "write");
    var del :- BoolField(ms, "delete");
    Ok(VaultPolicy(id, key, rd, wr, del))
  }

  function DecodeNomadPolicy(j: Json): Result<NomadPolicy, DecodeError> {
    var ms :- StructMembers(j);
    var id :- StringField(ms, "id");
    var sj :- BoolField(ms, "submitJobs");
    var rs :- BoolField(ms, "readJobStatus");
    var cj :- BoolField(ms, "cancelJobs");
    Ok(NomadPolicy(id, sj, rs, cj))
  }

  function DecodeConsulPolicy(j: Json): Result<ConsulPolicy, DecodeError> {
    var ms :- StructMembers(j);
    var id :- StringField(ms, "id");
    var key :- StringField(ms, "key");
    var rd :- BoolField(ms, "read");
    var wr :- BoolField(ms, "write");
    var del :- BoolField(ms, "delete");
    Ok(ConsulPolicy(id, key, rd, wr, del))
  }

  // ---- Properties of the mapping ----

  /** The Vault policy's JSON keys, with `key` present exactly when non-empty. */
  lemma VaultPolicyKeys(p: VaultPolicy)
    ensures Keys(VaultPolicyJson(p).members) ==
      if p.key == "" then ["id", "read", "write", "delete"] else ["id", "key", "read", "write", "delete"]
  {
    var ms := VaultPolicyJson(p).members;
    assert ms[0].key == "id";
  }

  lemma ConsulPolicyKeys(p: ConsulPolicy)
    ensures Keys(ConsulPolicyJson(p).members) ==
      if p.key == "" then ["id", "read", "write", "delete"] else ["id", "key", "read", "write", "delete"]
  {
    var ms := ConsulPolicyJson(p).members;
    assert ms[0].key == "id";
  }

  lemma TerraformPolicyRoundTrip(p: TerraformPolicy)
    ensures DecodeTerraformPolicy(TerraformPolicyJson(p)) == Ok(p)
  {
    var ms := TerraformPolicyJson(p).members;
    StringFieldUnique(ms, "id", 0, p.workspaceId);
    BoolFieldUnique(ms, "plan", 1, p.plan);
    BoolFieldUnique(ms, "apply", 2, p.apply);
    BoolFieldUnique(ms, "overridePolicies", 3, p.overridePolicies);
  }

  /** The five read/write/delete policy fields decode from members that hold them. */
  lemma FieldsDecoded(ms: seq<Member>, id: string, key: string, rd: bool, wr: bool, del: bool)
    requires StringField(ms, "id") == Ok(id) && StringField(ms, "key") == Ok(key)
    requires BoolField(ms, "read") == Ok(rd) && BoolField(ms, "write") == Ok(wr) && BoolField(ms, "delete") == Ok(del)
    ensures DecodeVaultPolicy(JObj(ms)) == Ok(VaultPolicy(id, key, rd, wr, del))
    ensures DecodeConsulPolicy(JObj(ms)) == Ok(ConsulPolicy(id, key, rd, wr, del))
  {
  }

  /** The members a Vault or Consul policy prints decode into its five fields. */
  lemma KeyedFieldsDecoded(id: string, key: string, rd: bool, wr: bool, del: bool)
    ensures var ms := [Member("id", JStr(id))] + KeyMember(key) +
                      [Member("read", JBool(rd)), Member("write", JBool(wr)), Member("delete", JBool(del))];
      && StringField(ms, "id") == Ok(id) && StringField(ms, "key") == Ok(key)
      && BoolField(ms, "read") == Ok(rd) && BoolField(ms, "write") == Ok(wr) && BoolField(ms, "delete") == Ok(del)
  {
    var ms := [Member("id", JStr(id))] + KeyMember(key) +
              [Member("read", JBool(rd)), Member("write", JBool(wr)), Member("delete", JBool(del))];
    var n := |KeyMember(key)|;
    StringFieldUnique(ms, "id", 0, id);
    if key == "" {
      FieldAbsent(ms, "key");
    } else {
      StringFieldUnique(ms, "key", 1, key);
    }
    BoolFieldUnique(ms, "read", 1 + n, rd);
    BoolFieldUnique(ms, "write", 2 + n, wr);
    BoolFieldUnique(ms, "delete", 3 + n, del);
  }

  lemma VaultPolicyRoundTrip(p: VaultPolicy)
    ensures DecodeVaultPolicy(VaultPolicyJson(p)) == Ok(p)
  {
    KeyedFieldsDecoded(p.clusterId, p.key, p.read, p.write, p.delete);
    FieldsDecoded(VaultPolicyJson(p).members, p.clusterId, p.key, p.read, p.write, p.delete);
  }

  lemma NomadPolicyRoundTrip(p: NomadPolicy)
    ensures DecodeNomadPolicy(NomadPolicyJson(p)) == Ok(p)
  {
    var ms := NomadPolicyJson(p).members;
    assert FoldChar(ms[1].key[0]) != FoldChar(ms[3].key[0]);
    StringFieldUnique(ms, "id", 0, p.clusterId);
    BoolFieldUnique(ms, "submitJobs", 1, p.submitJobs);
    BoolFieldUnique(ms, "readJobStatus", 2, p.readJobStatus);
    BoolFieldUnique(ms, "cancelJobs", 3, p.cancelJobs);
  }

  lemma ConsulPolicyRoundTrip(p: ConsulPolicy)
    ensures DecodeConsulPolicy(ConsulPolicyJson(p)) == Ok(p)
  {
    KeyedFieldsDecoded(p.clusterId, p.key, p.read, p.write, p.delete);
    FieldsDecoded(ConsulPolicyJson(p).members, p.clusterId, p.key, p.read, p.write, p.delete);
  }

  /** A key that differs from the tag only in case still sets the field:
      `{"id":"w","Plan":true}` decodes to a Terraform policy that may plan. */
  lemma CaseFoldedKeyDecoded()
    ensures DecodeTerraformPolicy(JObj([Member("id", JStr("w")), Member("Plan", JBool(true))]))
      == Ok(TerraformPolicy("w", true, false, false))
  {
    var ms := [Member("id", JStr("w")), Member("Plan", JBool(true))];
    assert FoldsTo("Plan", "plan");
    StringFieldUnique(ms, "id", 0, "w");
    BoolFieldUnique(ms, "plan", 1, true);
    FieldAbsent(ms, "apply");
    FieldAbsent(ms, "overridePolicies");
  }
}
