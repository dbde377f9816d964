// client/nomad.go: NomadClustersService: how each call reads the server's response.
// Transport failures (serialising, building or sending the request, reading
// the body) are not part of this model; `send` stands for the server.
module ClientNomad {
  import opened Common
  import opened Protocol
  import opened Records
  import opened ClientResponse

  const CreateRules: seq<Rule> :=
    [Rule(ServerError, ServerFailure),
     Rule(InvalidFormatError, BadFormat),
     Rule(FieldError(Missing, "/name"), NameMissing),
     Rule(FieldError(Missing, "/datacenter"), DatacenterMissing)]

  const GetRules: seq<Rule> :=
    [Rule(ServerError, ServerFailure),
     Rule(IdNotFound, NotFoundError)]

  const UpdateRules: seq<Rule> :=
    [Rule(ServerError, ServerFailure),
     Rule(InvalidFormatError, BadFormat),
     Rule(IdNotFound, NotFoundError),
     Rule(FieldError(Missing, "/name"), NameMissing),
     Rule(FieldError(Missing, "/datacenter"), DatacenterMissing)]

  const DeleteRules: seq<Rule> := GetRules

  /** POST the cluster to the collection and read the reply. */
  function Create(cluster: NomadCluster, send: Request<NomadCluster> -> Response<NomadCluster>): Result<NomadCluster, ClientError> {
    var resp := send(Request(HttpPost, "", Some(cluster)));
    if Contains(resp.errors, ServerError) then Err(ServerFailure)
    else if Contains(resp.errors, InvalidFormatError) then Err(BadFormat)
    else if Contains(resp.errors, FieldError(Missing, "/name")) then Err(NameMissing)
    else if Contains(resp.errors, FieldError(Missing, "/datacenter")) then Err(DatacenterMissing)
    else if |resp.errors| > 0 then Err(Unexpected(resp.errors))
    else if |resp.results| < 1 then Err(NoResult)
    else Ok(resp.results[0])
  }

  /** GET one cluster; an empty ID fails before any request. */
  function Get(id: string, send: Request<NomadCluster> -> Response<NomadCluster>): Result<NomadCluster, ClientError> {
    if id == "" then Err(EmptyId)
    else
      var resp := send(Request(HttpGet, id, None));
      if Contains(resp.errors, ServerError) then Err(ServerFailure)
      else if Contains(resp.errors, IdNotFound) then Err(NotFoundError)
      else if |resp.errors| > 0 then Err(Unexpected(resp.errors))
      else if |resp.results| < 1 then Err(NoResult)
      else Ok(resp.results[0])
  }

  /** PUT the cluster at its own ID; an empty ID fails before any request. */
  function Update(cluster: NomadCluster, send: Request<NomadCluster> -> Response<NomadCluster>): Result<NomadCluster, ClientError> {
    if cluster.id == "" then Err(EmptyId)
    else
      var resp := send(Request(HttpPut, cluster.id, Some(cluster)));
      if Contains(resp.errors, ServerError) then Err(ServerFailure)
      else if Contains(resp.errors, InvalidFormatError) then Err(BadFormat)
      else if Contains(resp.errors, IdNotFound) then Err(NotFoundError)
      else if Contains(resp.errors, FieldError(Missing, "/name")) then Err(NameMissing)
      else if Contains(resp.errors, FieldError(Missing, "/datacenter")) then Err(DatacenterMissing)
      else if |resp.errors| > 0 then Err(Unexpected(resp.errors))
      else if |resp.results| < 1 then Err(NoResult)
      else Ok(resp.results[0])
  }

  /** Delete one cluster. As written the request is built with method GET. */
  function Delete(id: string, send: Request<NomadCluster> -> Response<NomadCluster>): Option<ClientError> {
    if id == "" then Some(EmptyId)
    else
      var resp := send(Request(HttpGet, id, None));
      if Contains(resp.errors, ServerError) then Some(ServerFailure)
      else if Contains(resp.errors, IdNotFound) then Some(NotFoundError)
      else if |resp.errors| > 0 then Some(Unexpected(resp.errors))
      else None
  }

  // ---- Each call follows its rule table ----

  lemma CreateFollowsRules(cluster: NomadCluster, send: Request<NomadCluster> -> Response<NomadCluster>)
    ensures Create(cluster, send) == Classify(CreateRules, send(Request(HttpPost, "", Some(cluster))))
  {
    var errs := send(Request(HttpPost, "", Some(cluster))).errors;
    if Contains(errs, CreateRules[0].trigger) {
      EarliestRuleWins(CreateRules, errs, 0);
    } else if Contains(errs, CreateRules[1].trigger) {
      EarliestRuleWins(CreateRules, errs, 1);
    } else if Contains(errs, CreateRules[2].trigger) {
      EarliestRuleWins(CreateRules, errs, 2);
    } else if Contains(errs, CreateRules[3].trigger) {
      EarliestRuleWins(CreateRules, errs, 3);
    } else {
      NoRuleFires(CreateRules, errs);
    }
  }

  lemma GetFollowsRules(id: string, send: Request<NomadCluster> -> Response<NomadCluster>)
    ensures id == "" ==> Get(id, send) == Err(EmptyId)
    ensures id != "" ==> Get(id, send) == Classify(GetRules, send(Request(HttpGet, id, None)))
  {
    var errs := send(Request(HttpGet, id, None)).errors;
    if Contains(errs, GetRules[0].trigger) {
      EarliestRuleWins(GetRules, errs, 0);
    } else if Contains(errs, GetRules[1].trigger) {
      EarliestRuleWins(GetRules, errs, 1);
    } else {
      NoRuleFires(GetRules, errs);
    }
  }

  lemma UpdateFollowsRules(cluster: NomadCluster, send: Request<NomadCluster> -> Response<NomadCluster>)
    ensures cluster.id == "" ==> Update(cluster, send) == Err(EmptyId)
    ensures cluster.id != "" ==> Update(cluster, send) == Classify(UpdateRules, send(Request(HttpPut, cluster.id, Some(cluster))))
  {
    var errs := send(Request(HttpPut, cluster.id, Some(cluster))).errors;
    if Contains(errs, UpdateRules[0].trigger) {
      EarliestRuleWins(UpdateRules, errs, 0);
    } else if Contains(errs, UpdateRules[1].trigger) {
      EarliestRuleWins(UpdateRules, errs, 1);
    } else if Contains(errs, UpdateRules[2].trigger) {
      EarliestRuleWins(UpdateRules, errs, 2);
    } else if Contains(errs, UpdateRules[3].trigger) {
      EarliestRuleWins(UpdateRules, errs, 3);
    } else if Contains(errs, UpdateRules[4].trigger) {
      EarliestRuleWins(UpdateRules, errs, 4);
    } else {
      NoRuleFires(UpdateRules, errs);
    }
  }

  /** Delete sends GET, and succeeds exactly when that reply has no error. */
  lemma DeleteFollowsRules(id: string, send: Request<NomadCluster> -> Response<NomadCluster>)
    ensures id == "" ==> Delete(id, send) == Some(EmptyId)
    ensures id != "" ==> Delete(id, send) == ClassifyDelete(DeleteRules, send(Request(HttpGet, id, None)).errors)
    ensures id != "" ==> (Delete(id, send).None? <==> send(Request(HttpGet, id, None)).errors == [])
  {
    var errs := send(Request(HttpGet, id, None)).errors;
    DeleteSucceeds(DeleteRules, errs);
    if Contains(errs, GetRules[0].trigger) {
      EarliestRuleWins(GetRules, errs, 0);
    } else if Contains(errs, GetRules[1].trigger) {
      EarliestRuleWins(GetRules, errs, 1);
    } else {
      NoRuleFires(GetRules, errs);
    }
  }

  /** As written, Delete sends the very request Get sends, and the server
      answers a GET without changing anything: Delete reports the cluster
      missing exactly when Get does, and it succeeds only on a cluster
      Get still finds (or a reply without a result). */
  lemma DeleteAnswersAsGet(id: string, send: Request<NomadCluster> -> Response<NomadCluster>)
    requires id != ""
    ensures Delete(id, send) == Some(NotFoundError) <==> Get(id, send) == Err(NotFoundError)
    ensures Delete(id, send).None? ==> Get(id, send).Ok? || Get(id, send) == Err(NoResult)
  {
  }

  /** The Delete the service evidently intends: the same checks, on a
      request with method DELETE. */
  function DeleteIntended(id: string, send: Request<NomadCluster> -> Response<NomadCluster>): Option<ClientError> {
    if id == "" then Some(EmptyId)
    else
      var resp := send(Request(HttpDelete, id, None));
      if Contains(resp.errors, ServerError) then Some(ServerFailure)
      else if Contains(resp.errors, IdNotFound) then Some(NotFoundError)
      else if |resp.errors| > 0 then Some(Unexpected(resp.errors))
      else None
  }

  /** The intended Delete sends DELETE at the ID and reads the reply by the
      delete rules, succeeding exactly when the reply has no error. */
  lemma DeleteIntendedFollowsRules(id: string, send: Request<NomadCluster> -> Response<NomadCluster>)
    ensures id == "" ==> DeleteIntended(id, send) == Some(EmptyId)
    ensures id != "" ==> DeleteIntended(id, send) == ClassifyDelete(DeleteRules, send(Request(HttpDelete, id, None)).errors)
    ensures id != "" ==> (DeleteIntended(id, send).None? <==> send(Request(HttpDelete, id, None)).errors == [])
  {
    var errs := send(Request(HttpDelete, id, None)).errors;
    DeleteSucceeds(DeleteRules, errs);
    if Contains(errs, GetRules[0].trigger) {
      EarliestRuleWins(GetRules, errs, 0);
    } else if Contains(errs, GetRules[1].trigger) {
      EarliestRuleWins(GetRules, errs, 1);
    } else {
      NoRuleFires(GetRules, errs);
    }
  }

  /** Create has no conflict check: a lone conflict on `/id` is unexpected. */
  lemma CreateConflictIsUnexpected(resp: Response<NomadCluster>)
    requires resp.errors == [IdConflict]
    ensures Classify(CreateRules, resp) == Err(Unexpected([IdConflict]))
  {
    forall j | 0 <= j < |CreateRules|
      ensures !Contains(resp.errors, CreateRules[j].trigger)
    {
      assert resp.errors[0] != CreateRules[j].trigger;
    }
    NoRuleFires(CreateRules, resp.errors);
  }

  /** Update reports not-found before a missing name or datacenter. */
  lemma UpdateNotFoundBeforeFields(resp: Response<NomadCluster>)
    requires !Contains(resp.errors, ServerError) && !Contains(resp.errors, InvalidFormatError)
    requires Contains(resp.errors, IdNotFound)
    ensures Classify(UpdateRules, resp) == Err(NotFoundError)
  {
    EarliestRuleWins(UpdateRules, resp.errors, 2);
  }

  /** Create reports a missing name before a missing datacenter. */
  lemma CreateNameBeforeDatacenter(resp: Response<NomadCluster>)
    requires !Contains(resp.errors, ServerError) && !Contains(resp.errors, InvalidFormatError)
    requires Contains(resp.errors, FieldError(Missing, "/name"))
    ensures Classify(CreateRules, resp) == Err(NameMissing)
  {
    EarliestRuleWins(CreateRules, resp.errors, 2);
  }
}
