// api/terraform.go: defaults for a Terraform workspace and the decisions the
// POST and PUT handlers take before storing one. A failed body decode is a
// `None` body; a failed UUID generation is a `None` uuid.
module ApiTerraform {
  import opened Common
  import opened Protocol
  import opened Records
  import opened ApiStorer
  import opened ApiHandlers

  /** Every field FillDefaults fills is set. */
  predicate Defaulted(w: TerraformWorkspace) {
    && w.allowDestroyPlan.Some?
    && w.executionMode != ""
    && w.fileTriggersEnabled.Some?
    && w.speculativeEnabled.Some?
    && w.terraformVersion != ""
    && w.triggerPrefixes.Some?
    && w.vcsRepo.branch != ""
  }

  /** `r` differs from `w` at most in the fields FillDefaults fills, and only
      where `w` left them unset. */
  predicate OnlyFillsUnset(w: TerraformWorkspace, r: TerraformWorkspace) {
    && (w.allowDestroyPlan.Some? ==> r.allowDestroyPlan == w.allowDestroyPlan)
    && (w.executionMode != "" ==> r.executionMode == w.executionMode)
    && (w.fileTriggersEnabled.Some? ==> r.fileTriggersEnabled == w.fileTriggersEnabled)
    && (w.speculativeEnabled.Some? ==> r.speculativeEnabled == w.speculativeEnabled)
    && (w.terraformVersion != "" ==> r.terraformVersion == w.terraformVersion)
    && (w.triggerPrefixes.Some? ==> r.triggerPrefixes == w.triggerPrefixes)
    && (w.vcsRepo.branch != "" ==> r.vcsRepo.branch == w.vcsRepo.branch)
    && r.id == w.id && r.name == w.name && r.agentPoolId == w.agentPoolId
    && r.autoApply == w.autoApply && r.description == w.description
    && r.sourceName == w.sourceName && r.sourceUrl == w.sourceUrl
    && r.queueAllRuns == w.queueAllRuns && r.workingDirectory == w.workingDirectory
    && r.vcsRepo.oauthTokenId == w.vcsRepo.oauthTokenId
    && r.vcsRepo.ingressSubmodules == w.vcsRepo.ingressSubmodules
    && r.vcsRepo.identifier == w.vcsRepo.identifier
  }

  /** The workspace with its defaults filled in. */
  function Defaults(w: TerraformWorkspace): (r: TerraformWorkspace)
    ensures Defaulted(r)
    ensures OnlyFillsUnset(w, r)
  {
    TerraformWorkspace(
      id := w.id,
      name := w.name,
      agentPoolId := w.agentPoolId,
      allowDestroyPlan := if w.allowDestroyPlan.None? then Some(true) else w.allowDestroyPlan,
      autoApply := w.autoApply,
      description := w.description,
      executionMode := if w.executionMode == "" then "remote" else w.executionMode,
      fileTriggersEnabled := if w.fileTriggersEnabled.None? then Some(true) else w.fileTriggersEnabled,
      sourceName := w.sourceName,
      sourceUrl := w.sourceUrl,
      queueAllRuns := w.queueAllRuns,
      speculativeEnabled := if w.speculativeEnabled.None? then Some(true) else w.speculativeEnabled,
      terraformVersion := if w.terraformVersion == "" then "0.13.5" else w.terraformVersion,
      triggerPrefixes := if w.triggerPrefixes.None? then Some([]) else w.triggerPrefixes,
      workingDirectory := w.workingDirectory,
      vcsRepo := VcsRepo(
        oauthTokenId := w.vcsRepo.oauthTokenId,
        branch := if w.vcsRepo.branch == "" then "main" else w.vcsRepo.branch,
        ingressSubmodules := w.vcsRepo.ingressSubmodules,
        identifier := w.vcsRepo.identifier))
  }

  /** The default each unset field receives. */
  lemma DefaultValues(w: TerraformWorkspace)
    ensures var r := Defaults(w);
      && (w.allowDestroyPlan.None? ==> r.allowDestroyPlan == Some(true))
      && (w.executionMode == "" ==> r.executionMode == "remote")
      && (w.fileTriggersEnabled.None? ==> r.fileTriggersEnabled == Some(true))
      && (w.speculativeEnabled.None? ==> r.speculativeEnabled == Some(true))
      && (w.terraformVersion == "" ==> r.terraformVersion == "0.13.5")
      && (w.triggerPrefixes.None? ==> r.triggerPrefixes == Some([]))
      && (w.vcsRepo.branch == "" ==> r.vcsRepo.branch == "main")
  {
  }

  /** A workspace with every default already set is left as it is. */
  lemma DefaultsKeepDefaulted(w: TerraformWorkspace)
    requires Defaulted(w)
    ensures Defaults(w) == w
  {
  }

  /** Applying the defaults twice is applying them once. */
  lemma DefaultsIdempotent(w: TerraformWorkspace)
    ensures Defaults(Defaults(w)) == Defaults(w)
  {
    DefaultsKeepDefaulted(Defaults(w));
  }

  /** FillDefaults, one field at a time (the Go method fills the struct in place). */
  method FillDefaults(w: TerraformWorkspace) returns (r: TerraformWorkspace)
    ensures r == Defaults(w)
  {
    var allowDestroyPlan := w.allowDestroyPlan;
    if allowDestroyPlan.None? {
      allowDestroyPlan := Some(true);
    }
    var executionMode := w.executionMode;
    if executionMode == "" {
      executionMode := "remote";
    }
    var fileTriggersEnabled := w.fileTriggersEnabled;
    if fileTriggersEnabled.None? {
      fileTriggersEnabled := Some(true);
    }
    var speculativeEnabled := w.speculativeEnabled;
    if speculativeEnabled.None? {
      speculativeEnabled := Some(true);
    }
    var terraformVersion := w.terraformVersion;
    if terraformVersion == "" {
      terraformVersion := "0.13.5";
    }
    var triggerPrefixes := w.triggerPrefixes;
    if triggerPrefixes.None? {
      triggerPrefixes := Some([]);
    }
    var branch := w.vcsRepo.branch;
    if branch == "" {
      branch := "main";
    }
    r := w.(allowDestroyPlan := allowDestroyPlan, executionMode := executionMode,
            fileTriggersEnabled := fileTriggersEnabled, speculativeEnabled := speculativeEnabled,
            terraformVersion := terraformVersion, triggerPrefixes := triggerPrefixes,
            vcsRepo := w.vcsRepo.(branch := branch));
  }

  /** The POST checks, in order: the body decodes, an empty ID is replaced by
      a fresh UUID, the name is present. */
  function PostDecision(body: Option<TerraformWorkspace>, uuid: Option<string>): (d: Decision<TerraformWorkspace>)
    ensures body.None? ==> d == Reject(StatusBadRequest, [InvalidFormatError])
    ensures body.Some? && body.value.id == "" && uuid.None? ==> d == Reject(StatusServerError, [ServerError])
    ensures d.Proceed? <==> body.Some? && (body.value.id != "" || uuid.Some?) && body.value.name != ""
    ensures d.Reject? && body.Some? && (body.value.id != "" || uuid.Some?) ==> d == Reject(StatusBadRequest, [FieldError(Missing, "/name")])
    ensures d.Proceed? ==> d.id == (if body.value.id != "" then body.value.id else uuid.value)
    ensures d.Proceed? ==> d.record == body.value.(id := d.id)
  {
    if body.None? then Reject(StatusBadRequest, [InvalidFormatError])
    else
      var w := body.value;
      if w.id == "" && uuid.None? then Reject(StatusServerError, [ServerError])
      else
        var id := if w.id == "" then uuid.value else w.id;
        if w.name == "" then Reject(StatusBadRequest, [FieldError(Missing, "/name")])
        else Proceed(id, w.(id := id))
  }

  /** The PUT checks, in order: the body decodes, a non-empty body ID equals
      the path ID, the name is present. The record is then stored under the
      body's own ID, which is empty when the body carries none. */
  function PutDecision(pathId: string, body: Option<TerraformWorkspace>): (d: Decision<TerraformWorkspace>)
    ensures body.None? ==> d == Reject(StatusBadRequest, [InvalidFormatError])
    ensures body.Some? && body.value.id != "" && body.value.id != pathId ==> d == Reject(StatusBadRequest, [IdConflict])
    ensures d.Proceed? <==> body.Some? && (body.value.id == "" || body.value.id == pathId) && body.value.name != ""
    ensures d.Reject? && body.Some? && (body.value.id == "" || body.value.id == pathId) ==> d == Reject(StatusBadRequest, [FieldError(Missing, "/name")])
    ensures d.Proceed? ==> d.id == body.value.id && d.record == body.value
  {
    if body.None? then Reject(StatusBadRequest, [InvalidFormatError])
    else
      var w := body.value;
      if w.id != "" && w.id != pathId then Reject(StatusBadRequest, [IdConflict])
      else if w.name == "" then Reject(StatusBadRequest, [FieldError(Missing, "/name")])
      else Proceed(w.id, w)
  }

  /** handlePostTerraformWorkspace: a rejection stores nothing; otherwise the
      defaulted workspace is created under its ID. */
  method Post(t: Table<TerraformWorkspace>, body: Option<TerraformWorkspace>, uuid: Option<string>) returns (resp: Response<TerraformWorkspace>)
    modifies t
    ensures PostDecision(body, uuid).Reject? ==> resp == Rejection(PostDecision(body, uuid)) && t.rows == old(t.rows)
    ensures var d := PostDecision(body, uuid);
      d.Proceed? ==> CreateOutcome(old(t.rows), d.id, Defaults(d.record), resp, t.rows)
  {
    var d := PostDecision(body, uuid);
    if d.Reject? {
      return Rejection(d);
    }
    var rec := FillDefaults(d.record);
    resp := StoreCreate(t, d.id, rec);
  }

  /** handlePutTerraformWorkspace: a rejection stores nothing; otherwise the
      defaulted workspace replaces the stored one. */
  method Put(t: Table<TerraformWorkspace>, pathId: string, body: Option<TerraformWorkspace>) returns (resp: Response<TerraformWorkspace>)
    modifies t
    ensures PutDecision(pathId, body).Reject? ==> resp == Rejection(PutDecision(pathId, body)) && t.rows == old(t.rows)
    ensures var d := PutDecision(pathId, body);
      d.Proceed? ==> UpdateOutcome(old(t.rows), d.id, Defaults(d.record), resp, t.rows)
  {
    var d := PutDecision(pathId, body);
    if d.Reject? {
      return Rejection(d);
    }
    var rec := FillDefaults(d.record);
    resp := StoreUpdate(t, d.id, rec);
  }
}
