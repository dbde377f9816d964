// api/access.go: the server's access policy record and the decisions the POST
// and PUT handlers take before storing one. The stored record has only an ID
// and the policy data; no policy type is kept.
module ApiAccess {
  import opened Common
  import opened Protocol
  import opened Records
  import opened Json
  import opened ApiStorer
  import opened ApiHandlers

  /** The dynamic value held in the record's untyped policy-data field: nil,
      one of the four policy structs, or any other value (`Generic`), which
      is what decoding JSON into an untyped field produces. */
  datatype PolicyData =
    | NoData
    | TerraformData(terraform: TerraformPolicy)
    | VaultData(vault: VaultPolicy)
    | NomadData(nomad: NomadPolicy)
    | ConsulData(consul: ConsulPolicy)
    | Generic(value: Json)

  datatype AccessPolicy = AccessPolicy(id: string, policyData: PolicyData)

  /** What decoding a request body leaves in the policy-data field: JSON null
      (or an absent member) is nil, anything else is a generic value. It is
      never one of the four structs. */
  function PolicyDataFromJson(j: Json): (pd: PolicyData)
    ensures pd.NoData? <==> j.JNull?
    ensures !pd.NoData? ==> pd == Generic(j)
  {
    if j.JNull? then NoData else Generic(j)
  }

  /** The policy-data checks shared by POST and PUT: nil is missing
      `/policyData`; a struct with an empty ID is missing `/policyData/id`;
      any other dynamic type is invalid_value `/policyData`. */
  function PolicyDataError(pd: PolicyData): (e: Option<RequestError>)
    ensures pd.NoData? ==> e == Some(FieldError(Missing, "/policyData"))
    ensures pd.Generic? ==> e == Some(FieldError(InvalidValue, "/policyData"))
    ensures e.None? <==>
      || (pd.TerraformData? && pd.terraform.workspaceId != "")
      || (pd.VaultData? && pd.vault.clusterId != "")
      || (pd.NomadData? && pd.nomad.clusterId != "")
      || (pd.ConsulData? && pd.consul.clusterId != "")
    ensures e.Some? && !pd.NoData? && !pd.Generic? ==> e == Some(FieldError(Missing, "/policyData/id"))
  {
    match pd
    case NoData => Some(FieldError(Missing, "/policyData"))
    case TerraformData(p) => if p.workspaceId == "" then Some(FieldError(Missing, "/policyData/id")) else None
    case VaultData(p) => if p.clusterId == "" then Some(FieldError(Missing, "/policyData/id")) else None
    case NomadData(p) => if p.clusterId == "" then Some(FieldError(Missing, "/policyData/id")) else None
    case ConsulData(p) => if p.clusterId == "" then Some(FieldError(Missing, "/policyData/id")) else None
    case Generic(_) => Some(FieldError(InvalidValue, "/policyData"))
  }

  /** The POST checks, in order: the body decodes, an empty ID is replaced by
      a fresh UUID, then the policy-data checks. */
  function PostDecision(body: Option<AccessPolicy>, uuid: Option<string>): (d: Decision<AccessPolicy>)
    ensures body.None? ==> d == Reject(StatusBadRequest, [InvalidFormatError])
    ensures body.Some? && body.value.id == "" && uuid.None? ==> d == Reject(StatusServerError, [ServerError])
    ensures d.Proceed? <==> body.Some? && (body.value.id != "" || uuid.Some?) && PolicyDataError(body.value.policyData).None?
    ensures d.Reject? && body.Some? && (body.value.id != "" || uuid.Some?) ==>
      d == Reject(StatusBadRequest, [PolicyDataError(body.value.policyData).value])
    ensures d.Proceed? ==> d.id == (if body.value.id != "" then body.value.id else uuid.value)
    ensures d.Proceed? ==> d.record == body.value.(id := d.id)
  {
    if body.None? then Reject(StatusBadRequest, [InvalidFormatError])
    else
      var ap := body.value;
      if ap.id == "" && uuid.None? then Reject(StatusServerError, [ServerError])
      else
        var id := if ap.id == "" then uuid.value else ap.id;
        var e := PolicyDataError(ap.policyData);
        if e.Some? then Reject(StatusBadRequest, [e.value])
        else Proceed(id, ap.(id := id))
  }

  /** The PUT checks, in order: the body decodes, a non-empty body ID equals
      the path ID, then the policy-data checks. */
  function PutDecision(pathId: string, body: Option<AccessPolicy>): (d: Decision<AccessPolicy>)
    ensures body.None? ==> d == Reject(StatusBadRequest, [InvalidFormatError])
    ensures body.Some? && body.value.id != "" && body.value.id != pathId ==> d == Reject(StatusBadRequest, [IdConflict])
    ensures d.Proceed? <==> body.Some? && (body.value.id == "" || body.value.id == pathId) && PolicyDataError(body.value.policyData).None?
    ensures d.Reject? && body.Some? && (body.value.id == "" || body.value.id == pathId) ==>
      d == Reject(StatusBadRequest, [PolicyDataError(body.value.policyData).value])
    ensures d.Proceed? ==> d.id == body.value.id && d.record == body.value
  {
    if body.None? then Reject(StatusBadRequest, [InvalidFormatError])
    else
      var ap := body.value;
      if ap.id != "" && ap.id != pathId then Reject(StatusBadRequest, [IdConflict])
      else
        var e := PolicyDataError(ap.policyData);
        if e.Some? then Reject(StatusBadRequest, [e.value])
        else Proceed(ap.id, ap)
  }

  /** A body decoded from JSON is never stored: its policy data is nil
      (missing `/policyData`) or a generic value (invalid_value
      `/policyData`), so POST and PUT reject every such request. */
  lemma DecodedBodyNeverStored(id: string, data: Json, uuid: Option<string>, pathId: string)
    ensures PostDecision(Some(AccessPolicy(id, PolicyDataFromJson(data))), uuid).Reject?
    ensures PutDecision(pathId, Some(AccessPolicy(id, PolicyDataFromJson(data)))).Reject?
  {
  }

  /** The behaviour the type switch is written for: a body whose policy
      data holds one of the four structs with a non-empty ID is stored, by
      POST under its own non-empty ID and by PUT at that path. */
  lemma StructDataStored(ap: AccessPolicy, uuid: Option<string>)
    requires ap.id != ""
    requires !ap.policyData.NoData? && !ap.policyData.Generic?
    requires PolicyDataError(ap.policyData) != Some(FieldError(Missing, "/policyData/id"))
    ensures PostDecision(Some(ap), uuid) == Proceed(ap.id, ap)
    ensures PutDecision(ap.id, Some(ap)) == Proceed(ap.id, ap)
  {
  }

  /** handlePostAccessPolicy. */
  method Post(t: Table<AccessPolicy>, body: Option<AccessPolicy>, uuid: Option<string>) returns (resp: Response<AccessPolicy>)
    modifies t
    ensures PostDecision(body, uuid).Reject? ==> resp == Rejection(PostDecision(body, uuid)) && t.rows == old(t.rows)
    ensures var d := PostDecision(body, uuid);
      d.Proceed? ==> CreateOutcome(old(t.rows), d.id, d.record, resp, t.rows)
  {
    var d := PostDecision(body, uuid);
    if d.Reject? {
      return Rejection(d);
    }
    resp := StoreCreate(t, d.id, d.record);
  }

  /** handlePutAccessPolicy. */
  method Put(t: Table<AccessPolicy>, pathId: string, body: Option<AccessPolicy>) returns (resp: Response<AccessPolicy>)
    modifies t
    ensures PutDecision(pathId, body).Reject? ==> resp == Rejection(PutDecision(pathId, body)) && t.rows == old(t.rows)
    ensures var d := PutDecision(pathId, body);
      d.Proceed? ==> UpdateOutcome(old(t.rows), d.id, d.record, resp, t.rows)
  {
    var d := PutDecision(pathId, body);
    if d.Reject? {
      return Rejection(d);
    }
    resp := StoreUpdate(t, d.id, d.record);
  }
}
