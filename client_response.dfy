// client/response.go: comparing request errors, searching an error list,
// and the early-return classification every service applies to a response.
module ClientResponse {
  import opened Common
  import opened Protocol

  /** Field-by-field comparison of two request errors. */
  function Equal(e: RequestError, other: RequestError): (r: bool)
    ensures r <==> e == other
  {
    if e.slug != other.slug then false
    else if e.field != other.field then false
    else if e.param != other.param then false
    else if e.header != other.header then false
    else true
  }

  /** Some element of the list is equal to `e`. */
  predicate Contains(errs: seq<RequestError>, e: RequestError) {
    exists i :: 0 <= i < |errs| && Equal(errs[i], e)
  }

  /** The search loop of `RequestErrors.Contains`, returning at the first match. */
  method SearchContains(errs: seq<RequestError>, e: RequestError) returns (found: bool)
    ensures found <==> exists i :: 0 <= i < |errs| && errs[i] == e
    ensures errs == [] ==> !found
  {
    var i := 0;
    while i < |errs|
      invariant 0 <= i <= |errs|
      invariant forall j :: 0 <= j < i ==> errs[j] != e
    {
      if Equal(errs[i], e) {
        return true;
      }
      i := i + 1;
    }
    return false;
  }

  /** The errors a service call can return. `NotFoundError` stands for the
      service's own `Err...NotFound` value; `Unexpected` carries the list. */
  datatype ClientError =
    | EmptyId
    | ServerFailure
    | BadFormat
    | NameMissing
    | DatacenterMissing
    | AlreadyExists
    | RegionAccessDenied
    | RegionNotFound
    | PolicyDataMissing
    | PolicyDataIdMissing
    | PolicyDataInvalid
    | NotFoundError
    | Unexpected(errors: seq<RequestError>)
    | NoResult

  /** One early-return check: if the list contains `trigger`, fail with `outcome`. */
  datatype Rule = Rule(trigger: RequestError, outcome: ClientError)

  /** The outcome of the first rule, in order, whose trigger the list contains. */
  function FirstMatch(rules: seq<Rule>, errs: seq<RequestError>): Option<ClientError> {
    FirstMatchFrom(rules, errs, 0)
  }

  /** The first rule at or after position `k` whose trigger the list contains. */
  function FirstMatchFrom(rules: seq<Rule>, errs: seq<RequestError>, k: nat): Option<ClientError>
    decreases |rules| - k
  {
    if k >= |rules| then None
    else if Contains(errs, rules[k].trigger) then Some(rules[k].outcome)
    else FirstMatchFrom(rules, errs, k + 1)
  }

  /** A response as a service reads it for Create, Get and Update: the first
      matching rule; then any error at all; then an empty result list; else
      the first record. */
  function Classify<R>(rules: seq<Rule>, resp: Response<R>): Result<R, ClientError> {
    match FirstMatch(rules, resp.errors)
    case Some(e) => Err(e)
    case None =>
      if |resp.errors| > 0 then Err(Unexpected(resp.errors))
      else if |resp.results| < 1 then Err(NoResult)
      else Ok(resp.results[0])
  }

  /** A response as a service reads it for Delete: only the error list matters. */
  function ClassifyDelete(rules: seq<Rule>, errs: seq<RequestError>): Option<ClientError> {
    match FirstMatch(rules, errs)
    case Some(e) => Some(e)
    case None => if |errs| > 0 then Some(Unexpected(errs)) else None
  }

  // ---- Properties of the classification ----

  /** The earliest rule whose trigger is present decides the outcome. */
  lemma EarliestRuleWins(rules: seq<Rule>, errs: seq<RequestError>, k: nat)
    requires k < |rules| && Contains(errs, rules[k].trigger)
    requires forall j :: 0 <= j < k ==> !Contains(errs, rules[j].trigger)
    ensures FirstMatch(rules, errs) == Some(rules[k].outcome)
  {
    EarliestFrom(rules, errs, 0, k);
  }

  lemma {:induction false} EarliestFrom(rules: seq<Rule>, errs: seq<RequestError>, i: nat, k: nat)
    requires i <= k < |rules| && Contains(errs, rules[k].trigger)
    requires forall j :: i <= j < k ==> !Contains(errs, rules[j].trigger)
    ensures FirstMatchFrom(rules, errs, i) == Some(rules[k].outcome)
    decreases k - i
  {
    if i < k {
      EarliestFrom(rules, errs, i + 1, k);
    }
  }

  /** With no trigger present, no rule fires. */
  lemma NoRuleFires(rules: seq<Rule>, errs: seq<RequestError>)
    requires forall j :: 0 <= j < |rules| ==> !Contains(errs, rules[j].trigger)
    ensures FirstMatch(rules, errs) == None
  {
    NoneFrom(rules, errs, 0);
  }

  lemma {:induction false} NoneFrom(rules: seq<Rule>, errs: seq<RequestError>, i: nat)
    requires forall j :: i <= j < |rules| ==> !Contains(errs, rules[j].trigger)
    ensures FirstMatchFrom(rules, errs, i) == None
    decreases |rules| - i
  {
    if i < |rules| {
      NoneFrom(rules, errs, i + 1);
    }
  }

  /** A rule only fires on an error that is in the list. */
  lemma {:induction false} FiredFrom(rules: seq<Rule>, errs: seq<RequestError>, i: nat)
    requires FirstMatchFrom(rules, errs, i).Some?
    ensures exists k :: i <= k < |rules| && Contains(errs, rules[k].trigger) && rules[k].outcome == FirstMatchFrom(rules, errs, i).value
    ensures |errs| > 0
    decreases |rules| - i
  {
    if !Contains(errs, rules[i].trigger) {
      FiredFrom(rules, errs, i + 1);
    }
  }

  /** Success requires an empty error list and at least one record, and
      yields the first record. */
  lemma ClassifySucceeds<R>(rules: seq<Rule>, resp: Response<R>)
    ensures Classify(rules, resp).Ok? <==> |resp.errors| == 0 && |resp.results| > 0
    ensures Classify(rules, resp).Ok? ==> Classify(rules, resp).value == resp.results[0]
  {
    if FirstMatch(rules, resp.errors).Some? {
      FiredFrom(rules, resp.errors, 0);
    }
  }

  /** Delete succeeds exactly when the response carries no error. */
  lemma DeleteSucceeds(rules: seq<Rule>, errs: seq<RequestError>)
    ensures ClassifyDelete(rules, errs).None? <==> |errs| == 0
  {
    if FirstMatch(rules, errs).Some? {
      FiredFrom(rules, errs, 0);
    }
  }

  /** The server-error value matches only an act_of_god error with every
      other field empty. */
  lemma ServerErrorMatchesOnly(e: RequestError)
    ensures Contains([e], ServerError) <==> e.slug == ActOfGod && e.field == "" && e.param == "" && e.header == ""
  {
    assert Contains([e], ServerError) <==> Equal([e][0], ServerError);
  }

  /** The invalid-format value matches only invalid_format on field "/". */
  lemma InvalidFormatMatchesOnly(e: RequestError)
    ensures Contains([e], InvalidFormatError) <==> e.slug == InvalidFormat && e.field == "/" && e.param == "" && e.header == ""
  {
    assert Contains([e], InvalidFormatError) <==> Equal([e][0], InvalidFormatError);
  }
}
