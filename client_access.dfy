// client/access_policies.go: AccessPoliciesService: how each call reads the server's response.
// Transport failures (serialising, building or sending the request, reading
// the body) are not part of this model; `send` stands for the server.
module ClientAccess {
  import opened Common
  import opened Protocol
  import opened Records
  import opened ClientResponse
  import opened Json

  /** The client's access policy: the policy data travels as JSON. */
  datatype AccessPolicy = AccessPolicy(id: string, policyType: string, policyData: Json)

  const CreateRules: seq<Rule> :=
    [Rule(ServerError, ServerFailure),
     Rule(InvalidFormatError, BadFormat),
     Rule(IdConflict, AlreadyExists),
     Rule(FieldError(Missing, "/policyData"), PolicyDataMissing),
     Rule(FieldError(Missing, "/policyData/id"), PolicyDataIdMissing),
     Rule(FieldError(InvalidValue, "/policyData"), PolicyDataInvalid)]

  const GetRules: seq<Rule> :=
    [Rule(ServerError, ServerFailure),
     Rule(IdNotFound, NotFoundError)]

  const UpdateRules: seq<Rule> :=
    [Rule(ServerError, ServerFailure),
     Rule(InvalidFormatError, BadFormat),
     Rule(IdNotFound, NotFoundError),
     Rule(FieldError(Missing, "/policyData"), PolicyDataMissing),
     Rule(FieldError(Missing, "/policyData/id"), PolicyDataIdMissing),
     Rule(FieldError(InvalidValue, "/policyData"), PolicyDataInvalid)]

  const DeleteRules: seq<Rule> := GetRules

  /** POST the policy to the collection and read the reply. */
  function Create(policy: AccessPolicy, send: Request<AccessPolicy> -> Response<AccessPolicy>): Result<AccessPolicy, ClientError> {
    var resp := send(Request(HttpPost, "", Some(policy)));
    if Contains(resp.errors, ServerError) then Err(ServerFailure)
    else if Contains(resp.errors, InvalidFormatError) then Err(BadFormat)
    else if Contains(resp.errors, IdConflict) then Err(AlreadyExists)
    else if Contains(resp.errors, FieldError(Missing, "/policyData")) then Err(PolicyDataMissing)
    else if Contains(resp.errors, FieldError(Missing, "/policyData/id")) then Err(PolicyDataIdMissing)
    else if Contains(resp.errors, FieldError(InvalidValue, "/policyData")) then Err(PolicyDataInvalid)
    else if |resp.errors| > 0 then Err(Unexpected(resp.errors))
    else if |resp.results| < 1 then Err(NoResult)
    else Ok(resp.results[0])
  }

  /** GET one policy; an empty ID fails before any request. */
  function Get(id: string, send: Request<AccessPolicy> -> Response<AccessPolicy>): Result<AccessPolicy, ClientError> {
    if id == "" then Err(EmptyId)
    else
      var resp := send(Request(HttpGet, id, None));
      if Contains(resp.errors, ServerError) then Err(ServerFailure)
      else if Contains(resp.errors, IdNotFound) then Err(NotFoundError)
      else if |resp.errors| > 0 then Err(Unexpected(resp.errors))
      else if |resp.results| < 1 then Err(NoResult)
      else Ok(resp.results[0])
  }

  /** PUT the policy at its own ID; an empty ID fails before any request. */
  function Update(policy: AccessPolicy, send: Request<AccessPolicy> -> Response<AccessPolicy>): Result<AccessPolicy, ClientError> {
    if policy.id == "" then Err(EmptyId)
    else
      var resp := send(Request(HttpPut, policy.id, Some(policy)));
      if Contains(resp.errors, ServerError) then Err(ServerFailure)
      else if Contains(resp.errors, InvalidFormatError) then Err(BadFormat)
      else if Contains(resp.errors, IdNotFound) then Err(NotFoundError)
      else if Contains(resp.errors, FieldError(Missing, "/policyData")) then Err(PolicyDataMissing)
      else if Contains(resp.errors, FieldError(Missing, "/policyData/id")) then Err(PolicyDataIdMissing)
      else if Contains(resp.errors, FieldError(InvalidValue, "/policyData")) then Err(PolicyDataInvalid)
      else if |resp.errors| > 0 then Err(Unexpected(resp.errors))
      else if |resp.results| < 1 then Err(NoResult)
      else Ok(resp.results[0])
  }

  /** Delete one policy. As written the request is built with method GET. */
  function Delete(id: string, send: Request<AccessPolicy> -> Response<AccessPolicy>): Option<ClientError> {
    if id == "" then Some(EmptyId)
    else
      var resp := send(Request(HttpGet, id, None));
      if Contains(resp.errors, ServerError) then Some(ServerFailure)
      else if Contains(resp.errors, IdNotFound) then Some(NotFoundError)
      else if |resp.errors| > 0 then Some(Unexpected(resp.errors))
      else None
  }

  // ---- Each call follows its rule table ----

  lemma CreateFollowsRules(policy: AccessPolicy, send: Request<AccessPolicy> -> Response<AccessPolicy>)
    ensures Create(policy, send) == Classify(CreateRules, send(Request(HttpPost, "", Some(policy))))
  {
    var errs := send(Request(HttpPost, "", Some(policy))).errors;
    if Contains(errs, CreateRules[0].trigger) {
      EarliestRuleWins(CreateRules, errs, 0);
    } else if Contains(errs, CreateRules[1].trigger) {
      EarliestRuleWins(CreateRules, errs, 1);
    } else if Contains(errs, CreateRules[2].trigger) {
      EarliestRuleWins(CreateRules, errs, 2);
    } else if Contains(errs, CreateRules[3].trigger) {
      EarliestRuleWins(CreateRules, errs, 3);
    } else if Contains(errs, CreateRules[4].trigger) {
      EarliestRuleWins(CreateRules, errs, 4);
    } else if Contains(errs, CreateRules[5].trigger) {
      EarliestRuleWins(CreateRules, errs, 5);
    } else {
      NoRuleFires(CreateRules, errs);
    }
  }

  lemma GetFollowsRules(id: string, send: Request<AccessPolicy> -> Response<AccessPolicy>)
    ensures id == "" ==> Get(id, send) == Err(EmptyId)
    ensures id != "" ==> Get(id, send) == Classify(GetRules, send(Request(HttpGet, id, None)))
  {
    var errs := send(Request(HttpGet, id, None)).errors;
    if Contains(errs, GetRules[0].trigger) {
      EarliestRuleWins(GetRules, errs, 0);
    } else if Contains(errs, GetRules[1].trigger) {
      EarliestRuleWins(GetRules, errs, 1);
    } else {
      NoRuleFires(GetRules, errs);
    }
  }

  lemma UpdateFollowsRules(policy: AccessPolicy, send: Request<AccessPolicy> -> Response<AccessPolicy>)
    ensures policy.id == "" ==> Update(policy, send) == Err(EmptyId)
    ensures policy.id != "" ==> Update(policy, send) == Classify(UpdateRules, send(Request(HttpPut, policy.id, Some(policy))))
  {
    var errs := send(Request(HttpPut, policy.id, Some(policy))).errors;
    if Contains(errs, UpdateRules[0].trigger) {
      EarliestRuleWins(UpdateRules, errs, 0);
    } else if Contains(errs, UpdateRules[1].trigger) {
      EarliestRuleWins(UpdateRules, errs, 1);
    } else if Contains(errs, UpdateRules[2].trigger) {
      EarliestRuleWins(UpdateRules, errs, 2);
    } else if Contains(errs, UpdateRules[3].trigger) {
      EarliestRuleWins(UpdateRules, errs, 3);
    } else if Contains(errs, UpdateRules[4].trigger) {
      EarliestRuleWins(UpdateRules, errs, 4);
    } else if Contains(errs, UpdateRules[5].trigger) {
      EarliestRuleWins(UpdateRules, errs, 5);
    } else {
      NoRuleFires(UpdateRules, errs);
    }
  }

  /** Delete sends GET, and succeeds exactly when that reply has no error. */
  lemma DeleteFollowsRules(id: string, send: Request<AccessPolicy> -> Response<AccessPolicy>)
    ensures id == "" ==> Delete(id, send) == Some(EmptyId)
    ensures id != "" ==> Delete(id, send) == ClassifyDelete(DeleteRules, send(Request(HttpGet, id, None)).errors)
    ensures id != "" ==> (Delete(id, send).None? <==> send(Request(HttpGet, id, None)).errors == [])
  {
    var errs := send(Request(HttpGet, id, None)).errors;
    DeleteSucceeds(DeleteRules, errs);
    if Contains(errs, GetRules[0].trigger) {
      EarliestRuleWins(GetRules, errs, 0);
    } else if Contains(errs, GetRules[1].trigger) {
      EarliestRuleWins(GetRules, errs, 1);
    } else {
      NoRuleFires(GetRules, errs);
    }
  }

  /** As written, Delete sends the very request Get sends, and the server
      answers a GET without changing anything: Delete reports the policy
      missing exactly when Get does, and it succeeds only on a policy
      Get still finds (or a reply without a result). */
  lemma DeleteAnswersAsGet(id: string, send: Request<AccessPolicy> -> Response<AccessPolicy>)
    requires id != ""
    ensures Delete(id, send) == Some(NotFoundError) <==> Get(id, send) == Err(NotFoundError)
    ensures Delete(id, send).None? ==> Get(id, send).Ok? || Get(id, send) == Err(NoResult)
  {
  }

  /** The Delete the service evidently intends: the same checks, on a
      request with method DELETE. */
  function DeleteIntended(id: string, send: Request<AccessPolicy> -> Response<AccessPolicy>): Option<ClientError> {
    if id == "" then Some(EmptyId)
    else
      var resp := send(Request(HttpDelete, id, None));
      if Contains(resp.errors, ServerError) then Some(ServerFailure)
      else if Contains(resp.errors, IdNotFound) then Some(NotFoundError)
      else if |resp.errors| > 0 then Some(Unexpected(resp.errors))
      else None
  }

  /** The intended Delete sends DELETE at the ID and reads the reply by the
      delete rules, succeeding exactly when the reply has no error. */
  lemma DeleteIntendedFollowsRules(id: string, send: Request<AccessPolicy> -> Response<AccessPolicy>)
    ensures id == "" ==> DeleteIntended(id, send) == Some(EmptyId)
    ensures id != "" ==> DeleteIntended(id, send) == ClassifyDelete(DeleteRules, send(Request(HttpDelete, id, None)).errors)
    ensures id != "" ==> (DeleteIntended(id, send).None? <==> send(Request(HttpDelete, id, None)).errors == [])
  {
    var errs := send(Request(HttpDelete, id, None)).errors;
    DeleteSucceeds(DeleteRules, errs);
    if Contains(errs, GetRules[0].trigger) {
      EarliestRuleWins(GetRules, errs, 0);
    } else if Contains(errs, GetRules[1].trigger) {
      EarliestRuleWins(GetRules, errs, 1);
    } else {
      NoRuleFires(GetRules, errs);
    }
  }

  /** Create reports a conflict on `/id` before any policy-data problem. */
  lemma CreateConflictBeforePolicyData(resp: Response<AccessPolicy>)
    requires !Contains(resp.errors, ServerError) && !Contains(resp.errors, InvalidFormatError)
    requires Contains(resp.errors, IdConflict)
    ensures Classify(CreateRules, resp) == Err(AlreadyExists)
  {
    EarliestRuleWins(CreateRules, resp.errors, 2);
  }
}
