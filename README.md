# dadcorp control plane and Terraform provider, in Dafny

dadcorp is a small control plane. It has a REST server (`api/`) that stores
Terraform workspaces, Vault, Consul and Nomad clusters and access policies,
a Go client for it (`client/`), and a Terraform provider (`provider/`)
that reconciles declared resources against the server. This project models
the logic of all three parts and proves what each part promises.

- **Plan/apply engines** (`PluginVault`, `PluginTerraform`, `PluginAccess`,
  `PluginProvider`, over the values of `TfValues`). Attribute values are
  three-state: null, unknown or known (`TfValues.Val`). Attribute names are
  a `datatype AttrName` with one constructor per schema attribute, not
  strings.
  - Plan and Apply of each engine are methods that build their maps key by
    key, as the Go code does, and each is proved equal to a specification
    function; so are the conversions they call (`BuildRequest`,
    `MergeBack`, the policy fills). Validate of the Vault engine and Read
    and Import of the workspace engine are methods whose contracts state
    their answers. The other RPCs (Validate of the access-policy and
    workspace engines, Upgrade, and Read and Import of the Vault and
    access-policy engines) are functions whose contracts state their
    answers.
  - Lemmas state the rules of those functions: which attributes Plan may
    change, null versus unknown, idempotence of Plan, the choice of delete,
    create or update, and the merge-back of the server's answer.
  - The server is an oracle: a datatype of total functions that answer with
    a record or a typed client error.
- **SDK resources and data sources** (`SdkResource`, `SdkVault`,
  `SdkConsul`, `SdkNomad`, `SdkTerraform`, `SdkAccess`, `SdkData`).
  - `ResourceData` is a class whose ID and attribute map the CRUD methods
    update in place.
  - Each CRUD method is proved against a shared specification (`Creating`,
    `Reading`, `Updating`, `Deleting`).
  - Lemmas prove that a state refreshed from a server record rebuilds that
    record for the next update.
- **Server rules** (`Api*`).
  - `FillDefaults` is a method that fills a record value field by field. It
    is proved equal to a `Defaults` function, which is proved idempotent
    and to touch only empty fields.
  - The POST and PUT handlers' decisions are functions, checked in the order
    the handlers check them.
  - The region table.
  - The `Storer`: a class holding five tables. Each table is a map from the
    lower-cased ID to the record. The index refuses a record with an empty
    ID, and the handler then answers 500.
- **Client classification** (`Client*`). The early-return reading of a
  response (error list, result list) becomes a typed error or the first
  result; it is modelled as an ordered rule list with a first-match
  function.
- **JSON** (`Json`). Structured JSON values as RFC 8259 describes them,
  with the encoding/json mapping of the four policy structs: members in
  declaration order with `omitempty`, and decoding field by field, where a
  key equal to a field's tag up to case sets the field, null leaves it as
  it is, the last such member wins and a member of the wrong type is an
  error. A decoded `map[string]interface{}` is looked up by exact key. The
  round trips are proved. Parsing and printing JSON text are function parameters wherever
  the provider uses them.

Where the repository's prose description and its code differ, the model
follows the code:
- A delete answered with not-found is an error in the plan/apply engines,
  not an absent resource.
- Plan marks a null computed attribute unknown whatever the prior state
  holds.
- The merge-back takes an attribute from the plan when its planned value
  is known and non-null, and from the server otherwise.

## Model

| member | source | states |
|---|---|---|
| ApiAccess.PolicyDataFromJson | api/access.go:11-14 | a decoded body's `policyData` is absent exactly when the JSON value is null, and otherwise is a generic decoded value, never one of the four policy structs |
| ApiAccess.PolicyDataError | api/access.go:73-101 | missing data is `missing /policyData`, a generic value is `invalid_value /policyData`, and a policy struct passes exactly when its ID is non-empty, otherwise `missing /policyData/id` |
| ApiAccess.PostDecision | api/access.go:59-101 | an undecodable body is 400 invalid-format; an empty ID without a fresh UUID is 500; the request proceeds exactly when the ID is set or generated and the policy data passes; the stored record carries the chosen ID |
| ApiAccess.PutDecision | api/access.go:114-153 | an undecodable body is 400; a body ID that differs from the path ID is a 400 conflict on `/id`; the request proceeds exactly when the IDs agree and the policy data passes |
| ApiAccess.StructDataStored | api/access.go:73-111 | a body whose policy data holds one of the four structs with a non-empty ID is stored under its own non-empty ID by POST and PUT alike |
| ApiAccess.DecodedBodyNeverStored | api/access.go:77-101 | a body decoded from JSON never holds a policy struct, so every POST and PUT that reaches the policy-data checks is rejected |
| ApiAccess.Post | api/access.go:59-112 | a rejected POST answers the rejection and leaves the table as it was; an accepted one has the outcome of a create under the chosen ID |
| ApiAccess.Put | api/access.go:114-164 | a rejected PUT answers the rejection and leaves the table; an accepted one has the outcome of an update under the body ID |
| ApiConsul.Defaults | api/consul.go:40-74 | the defaulted cluster has every default set, keeps ID, name and bind address, and fills each empty address with 127.0.0.1 and each zero port with its default port (8600, 8500, 8501, 8502, 8301, 8302, 8300), never touching the sidecar and expose pointers |
| ApiConsul.DefaultsIdempotent | api/consul.go:40-74 | filling the defaults twice is filling them once |
| ApiConsul.FillAddresses | api/consul.go:41-52 | the field-by-field address defaults equal the address part of the defaults |
| ApiConsul.FillPorts | api/consul.go:53-73 | the field-by-field port defaults equal the port part of the defaults |
| ApiConsul.FillDefaults | api/consul.go:40-74 | the in-place fill yields the defaulted cluster |
| ApiConsul.PostDecision | api/consul.go:89-106 | 400 invalid-format for an undecodable body, 500 when no UUID can be made, 400 `missing /name` for an empty name; proceeds exactly when the body decodes, the ID is set or generated and the name is present |
| ApiConsul.PutDecision | api/consul.go:120-134 | 400 for an undecodable body, 400 conflict when the body ID differs from the path ID, 400 `missing /name`; proceeds exactly otherwise, with the body as sent |
| ApiConsul.Post | api/consul.go:89-119 | a rejection changes nothing; an accepted POST creates the defaulted cluster under its ID |
| ApiConsul.Put | api/consul.go:120-147 | a rejection changes nothing; an accepted PUT replaces the stored cluster with the defaulted one |
| ApiHandlers.HandleGet | api/access.go:46-58 | a stored ID (in any letter case) answers 200 with the record; an unknown ID answers 404 with a `not_found` error on the `id` parameter |
| ApiHandlers.HandleDelete | api/access.go:166-186 | a stored record is removed and returned as it was; an unknown ID answers 404 and the table is left as it was |
| ApiHandlers.StoreCreate | api/access.go:102-111 | a free, non-empty ID is stored and answered 201; a taken ID answers a 400 conflict on `/id`; an empty ID, which the index refuses, answers 500 with the act-of-god error; neither failure stores anything |
| ApiHandlers.StoreUpdate | api/access.go:154-163 | an existing ID is replaced and answered 200; an unknown ID answers 404; any other store failure answers 500; neither failure stores anything |
| ApiHandlers.EmptyIdNeverStored | api/storer.go:101-136 | with no row under the empty ID, a POST of an empty ID is answered 500 and a PUT of one 404, and the table keeps no row under it |
| ApiNomad.Defaults | api/nomad.go:44-64 | the defaulted cluster has every default set, keeps ID, name, datacenter, bind address, advertise and RetryMax, sets the ports to 4646/4647/4648 when zero, nil join lists to empty lists and an empty retry interval to 30s |
| ApiNomad.DefaultsIdempotent | api/nomad.go:44-64 | filling the defaults twice is filling them once |
| ApiNomad.FillDefaults | api/nomad.go:44-64 | the in-place fill yields the defaulted cluster |
| ApiNomad.PostDecision | api/nomad.go:78-99 | the POST checks in their order: decode, UUID, `missing /name`, then `missing /datacenter`; proceeds exactly when all pass |
| ApiNomad.PutDecision | api/nomad.go:113-131 | the PUT checks in their order: decode, ID conflict, name, datacenter; proceeds exactly when all pass |
| ApiNomad.Post | api/nomad.go:78-112 | a rejection changes nothing; an accepted POST creates the defaulted cluster |
| ApiNomad.Put | api/nomad.go:113-144 | a rejection changes nothing; an accepted PUT replaces the stored cluster with the defaulted one |
| ApiRegions.GetRegions | api/regions.go:26-101 | eight regions in table order; Consul everywhere; Vault where authenticated or in a home region; Nomad and Terraform only in home regions and only when authenticated |
| ApiRegions.RegionIdsDistinct | api/regions.go:26-101 | no two entries of the region table share an ID |
| ApiServer.Storer.TablesDistinct | api/storer.go:26-88 | the five tables are distinct objects, so a handler that changes one leaves the other four alone |
| ApiServer.Storer.constructor | api/storer.go:26-88 | a new storer has five fresh, empty tables |
| ApiStorer.SameRowIffCaseInsensitive | api/storer.go:26-88 | two IDs reach the same row exactly when they agree letter by letter up to ASCII case, because the index lower-cases the ID |
| ApiStorer.KeyIdempotent | api/storer.go:26-88 | lower-casing a lower-cased key changes nothing |
| ApiStorer.Table.constructor | api/storer.go:26-88 | a new table of a kind is empty |
| ApiStorer.Table.Get | api/storer.go:89-100 | a stored ID (in any case) returns its record; otherwise the kind's not-found error |
| ApiStorer.Table.Create | api/storer.go:101-118 | a taken ID is the kind's already-exists error; an empty ID is the index's missing-primary-index error; both change nothing; a free, non-empty one adds exactly that row |
| ApiStorer.Table.Update | api/storer.go:119-136 | an unknown ID is the kind's not-found error; an empty ID is the index's missing-primary-index error; both change nothing; an existing row is replaced by the new record |
| ApiStorer.Table.Delete | api/storer.go:137-154 | an unknown ID is the kind's not-found error and changes nothing; an existing row, and only it, is removed |
| ApiStorer.CreateThenGet | api/storer.go:89-118 | after a create, a get of the same ID in any letter case returns the new record, or the old one when the create failed as already-exists; an empty ID is refused and then not found |
| ApiStorer.DeleteThenGet | api/storer.go:137-154 | after a delete, a get of the same ID is not-found |
| ApiTerraform.Defaults | api/terraform.go:37-63 | the defaulted workspace has every default set and differs from the input only in fields that were unset |
| ApiTerraform.DefaultValues | api/terraform.go:37-63 | the defaults: allow-destroy-plan, file triggers and speculative true, execution mode `remote`, version 0.13.5, trigger prefixes an empty list, VCS branch `main` |
| ApiTerraform.DefaultsKeepDefaulted | api/terraform.go:37-63 | a workspace with all defaults already set is left unchanged |
| ApiTerraform.DefaultsIdempotent | api/terraform.go:37-63 | filling the defaults twice is filling them once |
| ApiTerraform.FillDefaults | api/terraform.go:37-63 | the in-place fill yields the defaulted workspace |
| ApiTerraform.PostDecision | api/terraform.go:77-94 | decode, UUID and `missing /name` checks in order; proceeds exactly when all pass |
| ApiTerraform.PutDecision | api/terraform.go:108-122 | decode, ID conflict and name checks in order; proceeds exactly when all pass, keeping the body's own (possibly empty) ID |
| ApiTerraform.Post | api/terraform.go:77-107 | a rejection changes nothing; an accepted POST creates the defaulted workspace |
| ApiTerraform.Put | api/terraform.go:108-135 | a rejection changes nothing; an accepted PUT replaces the stored workspace with the defaulted one |
| ApiVault.Defaults | api/vault.go:25-39 | the defaulted cluster has every default set; lease TTLs default to 768h, listener addresses to 127.0.0.1:8200 and 127.0.0.1:8201; a cluster already defaulted is unchanged |
| ApiVault.DefaultsIdempotent | api/vault.go:25-39 | filling the defaults twice is filling them once |
| ApiVault.FillDefaults | api/vault.go:25-39 | the in-place fill yields the defaulted cluster |
| ApiVault.ScanRegions | api/vault.go:60-75 | the loop over the region table gives the verdict of the region check: seen and offering Vault, seen without Vault, or never seen |
| ApiVault.RegionCheckOnTable | api/vault.go:60-75 | on the server's table, an unlisted region is invalid, a listed one is available exactly when authenticated or a home region, and access-denied otherwise |
| ApiVault.PostDecision | api/vault.go:53-86 | decode, then the region verdict (400 `access_denied` or `invalid_value` on `/region`), then UUID and name; proceeds exactly when all pass |
| ApiVault.PutDecision | api/vault.go:100-114 | decode, ID conflict and name checks, with no region check; proceeds exactly when all pass |
| ApiVault.Post | api/vault.go:53-99 | a rejection changes nothing; an accepted POST creates the defaulted cluster |
| ApiVault.Put | api/vault.go:100-127 | a rejection changes nothing; an accepted PUT replaces the stored cluster with the defaulted one |
| ClientResponse.Equal | client/response.go:60-76 | two request errors are equal exactly when slug, field, param and header all agree |
| ClientResponse.SearchContains | client/response.go:78-86 | the search loop finds an error exactly when some element of the list equals it; an empty list contains nothing |
| ClientResponse.EarliestRuleWins | client/consul.go:95-116 | the `if resp.Errors.Contains(...)` chain: the earliest check whose error is present decides the returned error |
| ClientResponse.NoRuleFires | client/consul.go:95-116 | with none of the checked errors present, no check returns |
| ClientResponse.FiredFrom | client/consul.go:95-116 | a check only fires on an error the reply carries, so a check fires only on a non-empty list |
| ClientResponse.ClassifySucceeds | client/consul.go:113-121 | a call succeeds exactly when the reply has no errors and at least one record, and returns the first record |
| ClientResponse.DeleteSucceeds | client/consul.go:207-236 | a delete succeeds exactly when the reply carries no error |
| ClientResponse.ServerErrorMatchesOnly | client/response.go:23-25 | the server-error value matches only an `act_of_god` error with every other field empty |
| ClientResponse.InvalidFormatMatchesOnly | client/response.go:23-25 | the invalid-format value matches only `invalid_format` on field `/` with the rest empty |
| ClientAccess.CreateFollowsRules | client/access_policies.go:69-125 | Create POSTs the policy and reads the reply by its checks in their order |
| ClientAccess.GetFollowsRules | client/access_policies.go:127-160 | Get refuses an empty ID without a request; otherwise it GETs the ID and reads the reply by its checks |
| ClientAccess.UpdateFollowsRules | client/access_policies.go:162-221 | Update refuses an empty ID without a request; otherwise it PUTs the policy at its ID and reads the reply by its checks |
| ClientAccess.DeleteFollowsRules | client/access_policies.go:223-252 | Delete refuses an empty ID; otherwise it sends GET at the ID and succeeds exactly when that reply has no error |
| ClientAccess.DeleteAnswersAsGet | client/access_policies.go:223-252 | as written, Delete reports not-found exactly when Get does, and "succeeds" only where Get finds the policy (or gets an empty reply), so nothing is removed |
| ClientAccess.DeleteIntendedFollowsRules | client/access_policies.go:223-252 | the corrected Delete sends DELETE at the ID, reads the reply by the same checks, and succeeds exactly when the reply has no error |
| ClientAccess.CreateConflictBeforePolicyData | client/access_policies.go:69-125 | Create reports an ID conflict as already-exists before any policy-data error |
| ClientConsul.CreateFollowsRules | client/consul.go:77-121 | Create POSTs the cluster and reads the reply by its checks in their order |
| ClientConsul.GetFollowsRules | client/consul.go:123-156 | Get refuses an empty ID; otherwise it GETs the ID and reads the reply by its checks |
| ClientConsul.UpdateFollowsRules | client/consul.go:158-205 | Update refuses an empty ID; otherwise it PUTs the cluster at its ID and reads the reply by its checks |
| ClientConsul.DeleteFollowsRules | client/consul.go:207-236 | Delete refuses an empty ID; otherwise it sends GET at the ID and succeeds exactly when that reply has no error |
| ClientConsul.DeleteAnswersAsGet | client/consul.go:207-236 | as written, Delete reports not-found exactly when Get does, and "succeeds" only where Get finds the cluster (or gets an empty reply), so nothing is removed |
| ClientConsul.DeleteIntendedFollowsRules | client/consul.go:207-236 | the corrected Delete sends DELETE at the ID, reads the reply by the same checks, and succeeds exactly when the reply has no error |
| ClientConsul.UpdateConflictIsUnexpected | client/consul.go:158-205 | Update has no conflict check, so a lone `/id` conflict is reported as an unexpected error |
| ClientNomad.CreateFollowsRules | client/nomad.go:81-125 | Create POSTs the cluster and reads the reply by its checks in their order |
| ClientNomad.GetFollowsRules | client/nomad.go:127-160 | Get refuses an empty ID; otherwise it GETs the ID and reads the reply by its checks |
| ClientNomad.UpdateFollowsRules | client/nomad.go:162-215 | Update refuses an empty ID; otherwise it PUTs the cluster at its ID and reads the reply by its checks |
| ClientNomad.DeleteFollowsRules | client/nomad.go:217-246 | Delete refuses an empty ID; otherwise it sends GET at the ID and succeeds exactly when that reply has no error |
| ClientNomad.DeleteAnswersAsGet | client/nomad.go:217-246 | as written, Delete reports not-found exactly when Get does, and "succeeds" only where Get finds the cluster (or gets an empty reply), so nothing is removed |
| ClientNomad.DeleteIntendedFollowsRules | client/nomad.go:217-246 | the corrected Delete sends DELETE at the ID, reads the reply by the same checks, and succeeds exactly when the reply has no error |
| ClientNomad.CreateConflictIsUnexpected | client/nomad.go:81-125 | Create has no conflict check, so a lone `/id` conflict is an unexpected error |
| ClientNomad.UpdateNotFoundBeforeFields | client/nomad.go:162-215 | Update reports not-found before a missing name or datacenter |
| ClientNomad.CreateNameBeforeDatacenter | client/nomad.go:81-125 | Create reports a missing name before a missing datacenter |
| ClientTerraform.CreateFollowsRules | client/terraform.go:74-118 | Create POSTs the workspace and reads the reply by its checks in their order |
| ClientTerraform.GetFollowsRules | client/terraform.go:120-153 | Get refuses an empty ID; otherwise it GETs the ID and reads the reply by its checks |
| ClientTerraform.UpdateFollowsRules | client/terraform.go:155-202 | Update refuses an empty ID; otherwise it PUTs the workspace at its ID and reads the reply by its checks |
| ClientTerraform.DeleteFollowsRules | client/terraform.go:204-233 | Delete refuses an empty ID; otherwise it sends GET at the ID and succeeds exactly when that reply has no error |
| ClientTerraform.DeleteAnswersAsGet | client/terraform.go:204-233 | as written, Delete reports not-found exactly when Get does, and "succeeds" only where Get finds the workspace (or gets an empty reply), so nothing is removed |
| ClientTerraform.DeleteIntendedFollowsRules | client/terraform.go:204-233 | the corrected Delete sends DELETE at the ID, reads the reply by the same checks, and succeeds exactly when the reply has no error |
| ClientTerraform.CreateNameBeforeConflict | client/terraform.go:74-118 | Create reports a missing name before an ID conflict |
| ClientTerraform.GetNotFound | client/terraform.go:120-153 | `not_found` on the `id` parameter is the not-found error for Get and Delete once no server error is present |
| ClientVault.CreateFollowsRules | client/vault.go:64-114 | Create POSTs the cluster and reads the reply by its checks in their order |
| ClientVault.GetFollowsRules | client/vault.go:116-149 | Get refuses an empty ID; otherwise it GETs the ID and reads the reply by its checks |
| ClientVault.UpdateFollowsRules | client/vault.go:151-198 | Update refuses an empty ID; otherwise it PUTs the cluster at its ID and reads the reply by its checks |
| ClientVault.DeleteFollowsRules | client/vault.go:200-229 | Delete refuses an empty ID; otherwise it sends GET at the ID and succeeds exactly when that reply has no error |
| ClientVault.DeleteAnswersAsGet | client/vault.go:200-229 | as written, Delete reports not-found exactly when Get does, and "succeeds" only where Get finds the cluster (or gets an empty reply), so nothing is removed |
| ClientVault.DeleteIntendedFollowsRules | client/vault.go:200-229 | the corrected Delete sends DELETE at the ID, reads the reply by the same checks, and succeeds exactly when the reply has no error |
| ClientVault.ServerErrorFirst | client/vault.go:64-229 | a server error wins over every other error in all four calls |
| ClientVault.RegionAccessDeniedFirst | client/vault.go:64-114 | Create reports `access_denied` on `/region` before `invalid_value` on `/region` |
| PluginAccess.PolicyDataToTerraformValue | provider/internal/provider/plugin_access.go:16-89 | the conversion fails with the unexpected-type error exactly when the type is not one of the four; otherwise it yields an object with exactly that type's attributes |
| PluginAccess.PolicyDataFields | provider/internal/provider/plugin_access.go:16-79 | each attribute of the converted object holds the JSON member of the same name, as a string or bool value |
| PluginAccess.TerraformPolicyFromFields | provider/internal/provider/plugin_access.go:90-127 | the Terraform decoder fails on a non-object, succeeds exactly when all four fields convert, and stops at the first failure, keeping the receiver's later fields |
| PluginAccess.VaultPolicyFromFields | provider/internal/provider/plugin_access.go:128-169 | the Vault decoder succeeds exactly when all five fields convert and stops at the first failure |
| PluginAccess.NomadPolicyFromFields | provider/internal/provider/plugin_access.go:170-207 | the Nomad decoder succeeds exactly when all four fields convert and stops at the first failure |
| PluginAccess.ConsulPolicyFromFields | provider/internal/provider/plugin_access.go:208-242 | the Consul decoder succeeds exactly when all five fields convert and stops at the first failure |
| PluginAccess.FillTerraformPolicy | provider/internal/provider/plugin_access.go:90-127 | assigning the receiver's fields one at a time gives the decoder's result |
| PluginAccess.FillVaultPolicy | provider/internal/provider/plugin_access.go:128-169 | assigning the receiver's fields one at a time gives the decoder's result |
| PluginAccess.FillNomadPolicy | provider/internal/provider/plugin_access.go:170-207 | assigning the receiver's fields one at a time gives the decoder's result |
| PluginAccess.FillConsulPolicy | provider/internal/provider/plugin_access.go:208-242 | assigning the receiver's fields one at a time gives the decoder's result |
| PluginAccess.TerraformJsonValue | provider/internal/provider/plugin_access.go:18-31 | the JSON of a Terraform policy converts to that policy's object |
| PluginAccess.NomadJsonValue | provider/internal/provider/plugin_access.go:48-61 | the JSON of a Nomad policy converts to that policy's object |
| PluginAccess.KeyedMembers | provider/internal/provider/plugin_access.go:32-47 | the JSON of a Vault or Consul policy converts to the keyed object, `key` reading as null when the empty key was left out |
| PluginAccess.TerraformValueDecodes | provider/internal/provider/plugin_access.go:90-127 | the Terraform decoder reads a policy's object back into any receiver |
| PluginAccess.NomadValueDecodes | provider/internal/provider/plugin_access.go:170-207 | the Nomad decoder reads a policy's object back into any receiver |
| PluginAccess.VaultValueDecodes | provider/internal/provider/plugin_access.go:128-169 | the Vault decoder reads a policy's object back into any receiver |
| PluginAccess.ConsulValueDecodes | provider/internal/provider/plugin_access.go:208-242 | the Consul decoder reads a policy's object back into any receiver |
| PluginAccess.TerraformDataRoundTrip | provider/internal/provider/plugin_access.go:16-127 | a Terraform policy's JSON, converted to policy_data and decoded again, is the same policy |
| PluginAccess.NomadDataRoundTrip | provider/internal/provider/plugin_access.go:16-207 | a Nomad policy's JSON, converted and decoded again, is the same policy |
| PluginAccess.VaultDataRoundTrip | provider/internal/provider/plugin_access.go:16-169 | a Vault policy's JSON, converted and decoded again, is the same policy |
| PluginAccess.ConsulDataRoundTrip | provider/internal/provider/plugin_access.go:16-242 | a Consul policy's JSON, converted and decoded again, is the same policy |
| PluginAccess.ValidateResourceTypeConfig | provider/internal/provider/plugin_access.go:278-337 | a config that is not an object is refused; otherwise validation passes exactly when `type` is unknown or converts to a string, and fails on `type` otherwise |
| PluginAccess.ValidateAcceptsAnyType | provider/internal/provider/plugin_access.go:278-337 | any string type passes validation, even one Apply will refuse |
| PluginAccess.PlanResourceChange | provider/internal/provider/plugin_access.go:499-545 | a proposed state that is not an object fails; otherwise the plan is the proposed state with its ID planned |
| PluginAccess.PlannedStateRules | provider/internal/provider/plugin_access.go:525-527 | planning only touches `id`: a null ID becomes unknown and every other attribute passes through; planning a plan again changes nothing |
| PluginAccess.RequestFromRules | provider/internal/provider/plugin_access.go:663-777 | Apply's request: a `type` that is not a string fails on `type`; a type outside the four fails on `policy_data` before any call; a request carries no ID, the planned type and JSON object data |
| PluginAccess.RequestDataRoundTrip | provider/internal/provider/plugin_access.go:681-760 | the request's policy data, converted back as Read converts it, decodes to the same policy as the planned policy_data |
| PluginAccess.BuildRequest | provider/internal/provider/plugin_access.go:681-777 | the type switch that decodes the planned policy_data with the type's decoder builds the request function's result |
| PluginAccess.ApplyResourceChange | provider/internal/provider/plugin_access.go:546-860 | no client is a failure with no call; a null plan deletes the prior ID and succeeds exactly when the delete does; a malformed plan fails with no call; otherwise a create (no prior state) or update is sent and its answer decides the state |
| PluginAccess.FinishRules | provider/internal/provider/plugin_access.go:839-843 | a successful create or update yields exactly the three attributes: the server's ID and the planned type and policy data, verbatim |
| PluginAccess.PolicyStateRules | provider/internal/provider/plugin_access.go:466-496 | a policy of an unknown type is a parse failure; otherwise the state has exactly `id`, `type` and `policy_data`, with the type's attributes |
| PluginAccess.ReadResource | provider/internal/provider/plugin_access.go:381-498 | a malformed state or ID fails; no client fails; a policy the server no longer has is removed from the state; any other error fails; a found policy becomes the state |
| PluginAccess.ImportResourceState | provider/internal/provider/plugin_access.go:861-922 | no client fails; every Get error, not-found included, fails; a found policy becomes the imported state |
| PluginAccess.ReadAgreesWithImport | provider/internal/provider/plugin_access.go:381-922 | Read and Import give the same state for a policy the server has; for one it does not, Read drops the resource while Import fails |
| PluginProvider.GetProviderSchema | provider/internal/provider/plugin_provider.go:20-43 | the provider block has exactly the optional username and password attributes; the schema lists the Vault cluster as its only resource, with the engine's attributes, and no data source |
| PluginProvider.ConfiguredFactoryRules | provider/internal/provider/plugin_provider.go:51-130 | configuration fails exactly when the config is not an object or a known, non-null username or password is not a string; a non-empty environment variable overrides the configured value |
| PluginProvider.Provider.constructor | provider/internal/provider/plugin_provider.go:12-19 | a new provider's client factory has empty credentials |
| PluginProvider.Provider.ConfigureProvider | provider/internal/provider/plugin_provider.go:51-130 | the credentials are stored only when every step succeeds; a failure leaves the factory as it was |
| PluginProvider.Provider.ValidateResourceTypeConfig | provider/internal/provider/plugin_provider.go:137-155 | an unrouted type name is "Unknown resource"; the Vault type is validated by the Vault engine |
| PluginProvider.Provider.UpgradeResourceState | provider/internal/provider/plugin_provider.go:156-174 | an unrouted type name is "Unknown resource"; the Vault type is upgraded by the shared upgrade |
| PluginProvider.Provider.ReadResource | provider/internal/provider/plugin_provider.go:175-193 | an unrouted type name is "Unknown resource"; the Vault type is read by the Vault engine |
| PluginProvider.Provider.PlanResourceChange | provider/internal/provider/plugin_provider.go:194-212 | an unrouted type name is "Unknown resource"; the Vault type is planned by the Vault engine |
| PluginProvider.Provider.ApplyResourceChange | provider/internal/provider/plugin_provider.go:213-231 | an unrouted type name is "Unknown resource" with no call; the Vault type is applied by the Vault engine |
| PluginProvider.Provider.ImportResourceState | provider/internal/provider/plugin_provider.go:232-251 | an unrouted type name is "Unknown resource"; the Vault type is imported by the Vault engine |
| PluginProvider.ValidateDataSourceConfig | provider/internal/provider/plugin_provider.go:252-265 | every data-source validation answers "Unknown data source" |
| PluginProvider.ReadDataSource | provider/internal/provider/plugin_provider.go:266-278 | every data-source read fails with "Unknown data source" |
| PluginProvider.UnknownResourceOnlyWhenUnrouted | provider/internal/provider/plugin_provider.go:156-251 | "Unknown resource" is answered exactly when the type name is not the Vault cluster's |
| PluginProvider.RoutedNeverUnknownResource | provider/internal/provider/plugin_provider.go:137-231 | the Vault engine's validate and apply never answer "Unknown resource" |
| PluginVault.FindRegion | provider/internal/provider/plugin_vault.go:177-181 | the region loop records a match exactly when the configured region is among the listed IDs |
| PluginVault.ValidateResourceTypeConfig | provider/internal/provider/plugin_vault.go:96-201 | validation meets the engine's validation rules: a malformed config or region fails; a known region is checked against the regions the server lists, client and list errors reported |
| PluginVault.ClusterState | provider/internal/provider/plugin_vault.go:330-339 | the state written for a returned cluster is an object with exactly the cluster's attributes |
| PluginVault.ReadResource | provider/internal/provider/plugin_vault.go:245-356 | a state that is not an object fails; Read succeeds exactly when the state has a string ID, a client exists and Get finds the cluster or answers not-found (the resource is then dropped) |
| PluginVault.ImportResourceState | provider/internal/provider/plugin_vault.go:792-847 | Import succeeds exactly when a client exists and Get finds the cluster, and then writes the cluster's state |
| PluginVault.ReadAgreesWithImport | provider/internal/provider/plugin_vault.go:245-847 | Read and Import give the same state for a cluster the server has; for one it does not, Read drops the resource while Import fails |
| PluginVault.ClusterStatePlanned | provider/internal/provider/plugin_vault.go:330-339 | the state Read writes is wholly known and already planned, so a refresh followed by a plan proposes no change |
| PluginVault.PlanReplyFails | provider/internal/provider/plugin_vault.go:357-439 | Plan fails only on a proposal that is not an object, or whose known, non-null tcp_listener is not an object, naming tcp_listener then |
| PluginVault.PlanReplyRules | provider/internal/provider/plugin_vault.go:383-421 | a null ID or TTL becomes unknown; a known, non-null tcp_listener is rebuilt with its null addresses unknown; everything else is as proposed |
| PluginVault.PlanReplyPlanned | provider/internal/provider/plugin_vault.go:357-439 | whatever Plan answers already has the planned shape |
| PluginVault.PlanReplyIdempotent | provider/internal/provider/plugin_vault.go:357-439 | planning a planned state changes nothing |
| PluginVault.PlanComputed | provider/internal/provider/plugin_vault.go:383-391 | the computed-attribute step, one attribute at a time, gives the planned computed attributes |
| PluginVault.PlanTcpListener | provider/internal/provider/plugin_vault.go:392-421 | the tcp_listener step gives the planned listener |
| PluginVault.PlanResourceChange | provider/internal/provider/plugin_vault.go:357-439 | the plan the engine answers is the plan function, whose rules the lemmas above state |
| PluginVault.RequestFrom | provider/internal/provider/plugin_vault.go:545-688 | a failed conversion names its first offending attribute (name, then region, ...); a request has no ID, the planned name and region, the known TTLs and listener addresses or empty strings |
| PluginVault.RequestFromClusterState | provider/internal/provider/plugin_vault.go:330-688 | converting a written state back into a request recovers the cluster, all but its ID |
| PluginVault.Merged | provider/internal/provider/plugin_vault.go:748-774 | the final state has the server's ID, the planned name and region, each TTL and listener address from the plan when known and non-null and from the server otherwise |
| PluginVault.MergedWhollyKnown | provider/internal/provider/plugin_vault.go:748-774 | a plan Apply could convert merges into a state with no unknown left |
| PluginVault.BuildRequest | provider/internal/provider/plugin_vault.go:545-688 | the field-by-field request equals the request function |
| PluginVault.MergeBack | provider/internal/provider/plugin_vault.go:748-774 | the key-by-key final state equals the merge function |
| PluginVault.ApplyResourceChange | provider/internal/provider/plugin_vault.go:440-791 | Apply meets the engine's apply rules: no client fails with no call; a null plan deletes the prior ID; a malformed plan fails with no call; otherwise create (no prior) or update, and a success merges the answer into the plan |
| PluginTerraform.ValidateResourceTypeConfig | provider/internal/provider/plugin_terraform.go:167-260 | a config that is not an object fails; when execution_mode and agent_pool_id are both known and non-null, a mode other than "agent" with a non-empty pool fails on execution_mode; anything else passes |
| PluginTerraform.StrValues | provider/internal/provider/plugin_terraform.go:389-392 | the prefix list value has one string per prefix, in order |
| PluginTerraform.WorkspaceStateKeys | provider/internal/provider/plugin_terraform.go:393-412 | the state written for a workspace is an object with exactly the schema's attributes |
| PluginTerraform.WorkspaceStateWhollyKnown | provider/internal/provider/plugin_terraform.go:393-412 | the state written for a workspace holds no unknown value |
| PluginTerraform.PrefixValues | provider/internal/provider/plugin_terraform.go:389-392 | the prefix loop gives each prefix, in order, as a string value |
| PluginTerraform.StateOf | provider/internal/provider/plugin_terraform.go:389-412 | the state built for a returned workspace is the workspace state |
| PluginTerraform.ReadResource | provider/internal/provider/plugin_terraform.go:304-429 | a state that is not an object or has no string ID fails; without a client Read fails; a not-found workspace drops the resource, any other Get error fails, and a found one is written back |
| PluginTerraform.ImportResourceState | provider/internal/provider/plugin_terraform.go:1248-1317 | Import succeeds exactly when a client exists and Get finds the workspace, writes its state, and reports every Get error, not-found included |
| PluginTerraform.PriorDefault | provider/internal/provider/plugin_terraform.go:484-535 | a non-null proposal is kept; a null one fails unless the prior value is a string, becomes "" when the prior was "", and stays null otherwise |
| PluginTerraform.PlanVcsRules | provider/internal/provider/plugin_terraform.go:554-625 | a vcs_repo that is not an object or whose prior is not an object fails naming vcs_repo; the planned block has the four keys, token and identifier as proposed, a null branch unknown, and a null ingress_submodules made false when the prior reads false, left null when the prior reads true, and a prior-state error when the prior is not a bool |
| PluginTerraform.PlanVcsFixed | provider/internal/provider/plugin_terraform.go:554-625 | a planned vcs_repo block is planned again to itself |
| PluginTerraform.PlanVcsBlock | provider/internal/provider/plugin_terraform.go:554-625 | the key-by-key block equals the vcs_repo plan function |
| PluginTerraform.MarkAllRules | provider/internal/provider/plugin_terraform.go:481-553 | marking turns each visited null attribute unknown, adds the visited ones, keeps the rest, and changes nothing when no visited attribute is null |
| PluginTerraform.UnknownOrderSpansKeys | provider/internal/provider/plugin_terraform.go:481-553 | the attributes the computed step visits are exactly the computed attributes |
| PluginTerraform.MarkedUnknown | provider/internal/provider/plugin_terraform.go:481-553 | after the computed step every computed attribute is unknown if it was null and as proposed otherwise; no other attribute changes |
| PluginTerraform.MarkUnknown | provider/internal/provider/plugin_terraform.go:481-553 | the attribute-by-attribute marking equals the marking function |
| PluginTerraform.PlanKeysApart | provider/internal/provider/plugin_terraform.go:484-625 | agent_pool_id, description and vcs_repo are distinct and none of them is computed, so their steps do not interfere |
| PluginTerraform.DefaultedFromPriorRules | provider/internal/provider/plugin_terraform.go:484-535 | a prior-state step sets its attribute to the prior default, changes nothing else, and passes on the default's error |
| PluginTerraform.DefaultFromPrior | provider/internal/provider/plugin_terraform.go:484-535 | the prior-state step as written equals its function |
| PluginTerraform.AttributesPlannedErrors | provider/internal/provider/plugin_terraform.go:484-535 | agent_pool_id's prior-state error is reported first, then description's |
| PluginTerraform.AttributesPlannedRules | provider/internal/provider/plugin_terraform.go:481-553 | a successful attribute step follows the computed and prior-state rules |
| PluginTerraform.AttributesPlannedFixed | provider/internal/provider/plugin_terraform.go:481-553 | attributes that need no rewriting pass the attribute step unchanged |
| PluginTerraform.PlanAttributes | provider/internal/provider/plugin_terraform.go:481-553 | the step-by-step attribute plan equals its function |
| PluginTerraform.PlanRulesPlanned | provider/internal/provider/plugin_terraform.go:430-642 | whatever follows the plan rules has the planned shape |
| PluginTerraform.PlannedUnchanged | provider/internal/provider/plugin_terraform.go:430-642 | a planned state meets every condition under which each rule leaves it as it is |
| PluginTerraform.PlanReplyErrors | provider/internal/provider/plugin_terraform.go:430-642 | Plan fails on a proposal or prior that is not an object, then on agent_pool_id's, description's and vcs_repo's prior-state errors, in that order |
| PluginTerraform.PlanReplyRules | provider/internal/provider/plugin_terraform.go:430-642 | a state Plan answers follows the rules attribute by attribute |
| PluginTerraform.PlanReplyPlanned | provider/internal/provider/plugin_terraform.go:430-642 | a state Plan answers has the planned shape |
| PluginTerraform.PlanReplyFixed | provider/internal/provider/plugin_terraform.go:430-642 | a proposal every rule leaves as it is is planned to itself |
| PluginTerraform.PlanReplyIdempotent | provider/internal/provider/plugin_terraform.go:430-642 | planning a planned state changes nothing |
| PluginTerraform.PlanResourceChange | provider/internal/provider/plugin_terraform.go:430-642 | the plan the engine answers is the plan function, whose rules the lemmas above state |
| PluginTerraform.StringsOf | provider/internal/provider/plugin_terraform.go:950-992 | the prefix conversion succeeds exactly when every element is a string, keeping them in order; otherwise it names the first element that is not |
| PluginTerraform.StringsOfStrValues | provider/internal/provider/plugin_terraform.go:389-392 | prefixes written to the state convert back to themselves |
| PluginTerraform.PrefixesFrom | provider/internal/provider/plugin_terraform.go:950-992 | trigger_prefixes is sent only when known; a known value that is not a list, or holds a non-string, fails naming that path |
| PluginTerraform.VcsFrom | provider/internal/provider/plugin_terraform.go:1012-1104 | the vcs_repo block must convert to an object; the branch is read only when known, the other three always, each failure naming its attribute |
| PluginTerraform.SentNulls | provider/internal/provider/plugin_terraform.go:910-992 | a null speculative_enabled is sent as false and a null trigger_prefixes as an empty list |
| PluginTerraform.RequestTailSent | provider/internal/provider/plugin_terraform.go:872-1104 | the second half of the request keeps the fields already converted, sends no ID or source, and follows the plan for the rest |
| PluginTerraform.RequestFromSent | provider/internal/provider/plugin_terraform.go:743-1104 | a failed conversion reports the planned-state format error, a non-string name first; a request follows the plan attribute by attribute |
| PluginTerraform.ConvertPrefixes | provider/internal/provider/plugin_terraform.go:950-992 | the element loop equals the prefix conversion function |
| PluginTerraform.BuildVcs | provider/internal/provider/plugin_terraform.go:1012-1104 | the attribute-by-attribute vcs_repo conversion equals its function |
| PluginTerraform.BuildRequest | provider/internal/provider/plugin_terraform.go:743-1104 | the request built with early returns equals the request function |
| PluginTerraform.BuildRequestTail | provider/internal/provider/plugin_terraform.go:872-1104 | the second half of the request as written equals its function |
| PluginTerraform.MergeKeysApart | provider/internal/provider/plugin_terraform.go:1165-1230 | the final state's attribute groups (ID, copied, plan-or-server, vcs_repo) partition the schema |
| PluginTerraform.MergedVcs | provider/internal/provider/plugin_terraform.go:1222-1230 | the final vcs_repo keeps the planned token, identifier and submodule flag, and the planned branch when known and non-null, the server's otherwise |
| PluginTerraform.MergedFromUnique | provider/internal/provider/plugin_terraform.go:1165-1230 | the merge rules determine the final state |
| PluginTerraform.MergeOne | provider/internal/provider/plugin_terraform.go:1171-1220 | one attribute of the final state is the planned value when known and non-null, the server's otherwise |
| PluginTerraform.MergeVcsBlock | provider/internal/provider/plugin_terraform.go:1222-1230 | the vcs_repo block as built equals its function |
| PluginTerraform.MergedOrderSpansKeys | provider/internal/provider/plugin_terraform.go:1171-1220 | the merge loop visits exactly the plan-or-server attributes |
| PluginTerraform.MergeAttributes | provider/internal/provider/plugin_terraform.go:1171-1220 | the merge loop sets each plan-or-server attribute by the plan-or-server rule and keeps the others |
| PluginTerraform.BaseState | provider/internal/provider/plugin_terraform.go:1165-1170 | the final state starts from the server's ID and the attributes copied from the plan |
| PluginTerraform.MergeBack | provider/internal/provider/plugin_terraform.go:1165-1230 | the final state Apply builds meets the merge rules |
| PluginTerraform.ApplyResourceChange | provider/internal/provider/plugin_terraform.go:643-1247 | no client fails with no call; a null plan deletes the prior ID; a malformed plan fails with no call; otherwise create (no prior) or update the prior ID, and a success merges the answer into the plan |
| SdkResource.TextList | provider/internal/provider/nomad.go:201-211 | a string list written to the state has one element per string, and a nil list is written as an empty one |
| SdkResource.StringsElementwise | provider/internal/provider/nomad.go:162-168 | the converted list has one string per element, each the element's string, in order |
| SdkResource.TextListReadsBack | provider/internal/provider/nomad.go:162-211 | a list written from strings reads back as the same strings |
| SdkResource.CollectStrings | provider/internal/provider/nomad.go:162-168 | the range-and-append loop gives the converted list |
| SdkResource.Listed | provider/internal/provider/vault.go:41-48 | the valid-options loop finds the value exactly when it is one of the options |
| SdkResource.Kept | provider/internal/provider/vault.go:115-125 | a run of writes stores exactly the written keys that belong to the schema, with the written values |
| SdkResource.Overwritten | provider/internal/provider/vault.go:115-125 | after the writes an attribute holds the written value when it was written and is in the schema, and its old value otherwise |
| SdkResource.ResourceData.SetId | provider/internal/provider/vault.go:114 | setting the ID changes no attribute |
| SdkResource.ResourceData.SetAll | provider/internal/provider/vault.go:115-125 | the writes change the schema attributes written and nothing else, not the ID |
| SdkResource.FailureChangesNothing | provider/internal/provider/vault.go:92-189 | a failed Create, Read or Update leaves the ID and the attributes as they were, and Update never changes the ID |
| SdkResource.ReadClearsIdOnNotFound | provider/internal/provider/vault.go:128-140 | Read clears the ID exactly when the service answers not-found, keeping the attributes, and reports every other error, after one GET of the ID |
| SdkResource.SuccessWritesResponse | provider/internal/provider/vault.go:114-125 | a success stores each written schema attribute and keeps every other attribute |
| SdkVault.ValidateRegion | provider/internal/provider/vault.go:29-56 | the region passes exactly when it is the string "us-va-1" or "us-va-2"; a non-string is an invalid type, any other string an invalid region |
| SdkVault.ListenerOnlyWhenPresent | provider/internal/provider/vault.go:97-109 | the listener is sent only when the tcp_listener list is non-empty, from its first block |
| SdkVault.WritesCoverSchema | provider/internal/provider/vault.go:114-125 | the write-back sets every attribute of the schema |
| SdkVault.WritesReadBack | provider/internal/provider/vault.go:97-125 | a state refreshed from a cluster rebuilds exactly that cluster for the next Update |
| SdkVault.CreateThenUpdate | provider/internal/provider/vault.go:92-189 | after a successful Create the ID is the server's and an Update straight after sends the created cluster unchanged |
| SdkVault.CreateCluster | provider/internal/provider/vault.go:92-127 | Create fails without a client, posts the configured cluster, and on success sets the ID and attributes from the reply; a failure changes nothing |
| SdkVault.ReadCluster | provider/internal/provider/vault.go:128-153 | Read gets the cluster at the ID, clears the ID on not-found, reports other errors, and refreshes the attributes on success |
| SdkVault.UpdateCluster | provider/internal/provider/vault.go:154-189 | Update sends the configured cluster with the ID and refreshes the attributes from the reply |
| SdkVault.DeleteCluster | provider/internal/provider/vault.go:190-200 | Delete asks to delete the cluster at the ID and reports the client's error |
| SdkConsul.BlocksOnlyWhenPresent | provider/internal/provider/consul.go:131-160 | addresses and ports are copied only when their blocks are present, and the four sidecar and expose ports are set exactly when ports is |
| SdkConsul.WritesReadBack | provider/internal/provider/consul.go:131-195 | a state refreshed from a cluster whose four pointer ports are set rebuilds that cluster for the next Update |
| SdkConsul.NilPortResentAsZero | provider/internal/provider/consul.go:144-195 | a nil sidecar port does not survive the refresh: the next request sends 0 for it |
| SdkConsul.CreateThenUpdate | provider/internal/provider/consul.go:125-307 | after a successful Create the ID is the server's and an Update straight after sends the created cluster unchanged |
| SdkConsul.CreateCluster | provider/internal/provider/consul.go:125-195 | Create fails without a client, posts the configured cluster, and on success sets the ID and attributes from the reply |
| SdkConsul.ReadCluster | provider/internal/provider/consul.go:196-236 | Read gets the cluster at the ID, clears the ID on not-found, reports other errors, and refreshes the attributes on success |
| SdkConsul.UpdateCluster | provider/internal/provider/consul.go:237-307 | Update sends the configured cluster with the ID and refreshes the attributes from the reply |
| SdkConsul.DeleteCluster | provider/internal/provider/consul.go:308-318 | Delete asks to delete the cluster at the ID and reports the client's error |
| SdkNomad.BuildCluster | provider/internal/provider/nomad.go:136-177 | the request built with the join loops is the configured cluster |
| SdkNomad.BlocksOnlyWhenPresent | provider/internal/provider/nomad.go:142-177 | advertise and ports are copied only when present; server_join is applied exactly when both the server and server_join lists are non-empty |
| SdkNomad.JoinListsInOrder | provider/internal/provider/nomad.go:160-177 | retry_join and start_join are copied element by element, in order |
| SdkNomad.JoinReadsBack | provider/internal/provider/nomad.go:201-211 | a server_join block written back reads back as the same server_join when both lists were non-nil |
| SdkNomad.WritesReadBack | provider/internal/provider/nomad.go:136-211 | a state refreshed from a cluster with non-nil join lists rebuilds that cluster for the next Update |
| SdkNomad.CreateThenUpdate | provider/internal/provider/nomad.go:131-345 | after a successful Create the ID is the server's and an Update straight after sends the created cluster unchanged |
| SdkNomad.CreateCluster | provider/internal/provider/nomad.go:131-215 | Create fails without a client, posts the configured cluster, and on success sets the ID and attributes from the reply |
| SdkNomad.ReadCluster | provider/internal/provider/nomad.go:216-260 | Read gets the cluster at the ID, clears the ID on not-found, reports other errors, and refreshes the attributes on success |
| SdkNomad.UpdateCluster | provider/internal/provider/nomad.go:261-345 | Update sends the configured cluster with the ID and refreshes the attributes from the reply |
| SdkNomad.DeleteCluster | provider/internal/provider/nomad.go:346-356 | Delete asks to delete the cluster at the ID and reports the client's error |
| SdkTerraform.BuildWorkspace | provider/internal/provider/terraform.go:114-142 | the request built with the prefix loop is the configured workspace |
| SdkTerraform.PointersAlwaysSet | provider/internal/provider/terraform.go:114-128 | allow_destroy_plan, file_triggers_enabled and speculative_enabled are always sent, as configured |
| SdkTerraform.PrefixesAndVcs | provider/internal/provider/terraform.go:130-142 | the prefixes are appended in order and stay nil when none are configured; vcs_repo is copied only when its block is present |
| SdkTerraform.VcsNeverRefreshed | provider/internal/provider/terraform.go:158-165 | as written, the refresh stores nothing for vcs_repo, so the next request keeps the configured repository whatever the server answered |
| SdkTerraform.ServerBranchLost | provider/internal/provider/terraform.go:158-165 | as written, a server branch "main" with no repository configured is lost on refresh; with the intended key it is kept |
| SdkTerraform.IntendedWritesReadBack | provider/internal/provider/terraform.go:146-166 | writing vcs_repo under its schema name, the refreshed state rebuilds the server's repository, and the whole workspace when its pointer fields are set |
| SdkTerraform.ListsReadBack | provider/internal/provider/terraform.go:146-166 | with the intended key, vcs_repo reads back as the block written and trigger_prefixes is left as configured |
| SdkTerraform.StringsReadBack | provider/internal/provider/terraform.go:146-166 | every string attribute written back reads back as the server's value |
| SdkTerraform.FlagsReadBack | provider/internal/provider/terraform.go:146-166 | every flag written back reads back as the server's value |
| SdkTerraform.Rebuilt | provider/internal/provider/terraform.go:114-142 | attributes that read back as a workspace's values rebuild that workspace's request |
| SdkTerraform.UpdateAlwaysRejected | provider/internal/provider/terraform.go:204-237 | as written, Update sends the workspace without the ID, so the client refuses it with the empty-ID error and the state is left as it was |
| SdkTerraform.IntendedUpdateReachesServer | provider/internal/provider/terraform.go:204-262 | with the ID set, the update is sent as a PUT at that ID, its errors are reported, and a success refreshes the state from the reply |
| SdkTerraform.CreateWorkspace | provider/internal/provider/terraform.go:109-168 | Create fails without a client, posts the configured workspace, and on success sets the ID and attributes from the reply |
| SdkTerraform.ReadWorkspace | provider/internal/provider/terraform.go:169-203 | Read gets the workspace at the ID, clears the ID on not-found, reports other errors, and refreshes the attributes on success |
| SdkTerraform.UpdateWorkspace | provider/internal/provider/terraform.go:204-262 | Update sends the configured workspace without the ID and refreshes the attributes from the reply |
| SdkTerraform.DeleteWorkspace | provider/internal/provider/terraform.go:263-273 | Delete asks to delete the workspace at the ID and reports the client's error |
| SdkAccess.ValidateType | provider/internal/provider/access.go:62-88 | the type passes exactly when it is one of the strings terraform, consul, nomad and vault; a non-string is an invalid type, any other string an invalid value |
| SdkAccess.ValidatePolicyData | provider/internal/provider/access.go:33-56 | policy_data passes exactly when it is a string holding JSON; a non-string is an invalid type, other text an invalid value |
| SdkAccess.PolicyFromRules | provider/internal/provider/access.go:100-133 | a type outside the four is refused before any call; a known type fails only when its text does not decode; a policy keeps the ID and type |
| SdkAccess.PolicyFromSends | provider/internal/provider/access.go:103-131 | a known type sends the JSON of the struct of that type its text decodes to |
| SdkAccess.SentIsCanonical | provider/internal/provider/access.go:103-131 | every policy sent carries the JSON of a struct of its own type |
| SdkAccess.WritesReadBack | provider/internal/provider/access.go:100-167 | a state refreshed from a canonical policy, printed and parsed back, rebuilds that policy for the next Update |
| SdkAccess.CreateThenUpdate | provider/internal/provider/access.go:95-224 | after a successful Create answered with a canonical policy, the ID is the server's and an Update straight after sends that policy |
| SdkAccess.CreatePolicy | provider/internal/provider/access.go:95-148 | Create fails without a client, refuses an unknown type or undecodable data with no call, posts the policy, and on success sets the ID, type and printed policy_data |
| SdkAccess.ReadPolicy | provider/internal/provider/access.go:149-170 | Read gets the policy at the ID, clears the ID on not-found, reports other errors, and refreshes type and policy_data on success |
| SdkAccess.UpdatePolicy | provider/internal/provider/access.go:171-224 | Update sends the policy with the ID, after the same type and data checks as Create, and refreshes the state from the reply |
| SdkAccess.DeletePolicy | provider/internal/provider/access.go:225-235 | Delete asks to delete the policy at the ID and reports the client's error |
| SdkData.ReadConsulPolicy | provider/internal/provider/data_consul.go:47-62 | the data source's ID is cluster ID, dot, key, and json holds the printed policy; nothing else changes |
| SdkData.ReadVaultPolicy | provider/internal/provider/data_vault.go:47-62 | the data source's ID is cluster ID, dot, key, and json holds the printed policy; nothing else changes |
| SdkData.ReadTerraformPolicy | provider/internal/provider/data_terraform.go:43-57 | the data source's ID is the workspace ID, and json holds the printed policy; nothing else changes |
| SdkData.ReadNomadPolicy | provider/internal/provider/data_nomad.go:43-57 | the data source's ID is the cluster ID, and json holds the printed policy; nothing else changes |
| SdkData.SplitId | provider/internal/provider/data_consul.go:59 | the cluster part read from an ID holds no dot and is no longer than the ID |
| SdkData.KeyedIdEnds | provider/internal/provider/data_consul.go:59 | the ID is the cluster ID, a dot and the key, so it ends in a dot when the key is empty |
| SdkData.SplitKeyedId | provider/internal/provider/data_consul.go:59 | a cluster ID without a dot and the key can be read back from the ID |
| SdkData.KeyedIdCollides | provider/internal/provider/data_consul.go:59 | a dot in the cluster ID lets two configurations share one ID |
| SdkData.JsonStored | provider/internal/provider/data_consul.go:60 | setting json adds that attribute with the text and changes no other |
| SdkData.ConsulJsonReadsBack | provider/internal/provider/data_consul.go:48-60 | the stored json parses and decodes back to the configured policy, and carries key only when it is non-empty |
| SdkData.VaultJsonReadsBack | provider/internal/provider/data_vault.go:48-60 | the stored json parses and decodes back to the configured policy, and carries key only when it is non-empty |
| SdkData.TerraformJsonReadsBack | provider/internal/provider/data_terraform.go:44-55 | the stored json parses and decodes back to the configured policy, with the keys id, plan, apply and overridePolicies |
| SdkData.NomadJsonReadsBack | provider/internal/provider/data_nomad.go:44-55 | the stored json parses and decodes back to the configured policy |
| Common.Lower | api/storer.go:35 | the case-folded index key has the ID's length and each ASCII capital lower-cased |
| Json.LookupUnique | provider/internal/provider/plugin_access.go:16-81 | in the decoded `map[string]interface{}` the engine indexes, a key carried by exactly one member holds that member's value |
| Json.LookupAbsent | provider/internal/provider/plugin_access.go:16-81 | a key no member carries is absent from that map, so indexing it gives nil |
| Json.StringFieldFails | provider/internal/provider/access.go:104-131 | decoding a string field fails exactly when some member whose key equals the tag up to case holds neither a string nor null |
| Json.BoolFieldFails | provider/internal/provider/access.go:104-131 | decoding a bool field fails exactly when some member whose key equals the tag up to case holds neither a bool nor null |
| Json.StringFieldLast | provider/internal/provider/access.go:104-131 | a decoded string field holds the last non-null member whose key equals the tag up to case |
| Json.BoolFieldLast | provider/internal/provider/access.go:104-131 | a decoded bool field holds the last non-null member whose key equals the tag up to case |
| Json.FieldAbsent | provider/internal/provider/access.go:104-131 | with no member naming it, a field keeps its zero value, "" or false |
| Json.StringFieldUnique | provider/internal/provider/access.go:104-131 | the one member naming a string field, in any letter case, decodes into it |
| Json.BoolFieldUnique | provider/internal/provider/access.go:104-131 | the one member naming a bool field, in any letter case, decodes into it |
| Json.KeyedFieldsDecoded | client/access_policies.go:42-63 | the members a Vault or Consul policy prints decode into its five fields, an omitted empty key into "" |
| Json.CaseFoldedKeyDecoded | provider/internal/provider/access.go:104-110 | `{"id":"w","Plan":true}` decodes to the Terraform policy of workspace w that may plan |
| Json.Keys | client/access_policies.go:35-63 | the key list of an object has one key per member, in order |
| Json.VaultPolicyKeys | client/access_policies.go:57-63 | a Vault policy prints the keys id, key, read, write, delete, leaving out key when it is empty |
| Json.ConsulPolicyKeys | client/access_policies.go:42-48 | a Consul policy prints the keys id, key, read, write, delete, leaving out key when it is empty |
| Json.FieldsDecoded | client/access_policies.go:42-63 | members holding the five fields decode into the Vault and the Consul policy with those values |
| Json.TerraformPolicyRoundTrip | client/access_policies.go:35-40 | a Terraform policy printed as JSON decodes back to itself |
| Json.VaultPolicyRoundTrip | client/access_policies.go:57-63 | a Vault policy printed as JSON decodes back to itself, an empty key included |
| Json.NomadPolicyRoundTrip | client/access_policies.go:50-55 | a Nomad policy printed as JSON decodes back to itself |
| Json.ConsulPolicyRoundTrip | client/access_policies.go:42-48 | a Consul policy printed as JSON decodes back to itself, an empty key included |
| TfValues.UpgradeResourceState | provider/internal/provider/plugin_vault.go:202-244 | only schema version 1 is accepted, and its raw state is returned unchanged; any other version fails |
| TfValues.PriorId | provider/internal/provider/plugin_terraform.go:682-712 | the prior ID is the `id` string of an object prior state (a missing or null `id` reads as empty); a prior that is not an object, or whose `id` is not a string, is a prior-state format error |

## Left out

- HTTP transport and wire encoding: building, sending and decoding requests (client/client.go, client/regions.go, the server's routing and reply encoding). A client call is modelled from the server's answer, given as an error list and a result list.
- tftypes marshalling: conformance of a value to its schema type, and the text of conversion errors. A failed conversion is one generic outcome, and a diagnostic is a kind and an attribute path without its message text.
- Diagnostic and error message strings, context cancellation and concurrency.
- Building a client (NewClient) can fail; the model takes the client as an `Option`, with `None` standing for the failure.
- Environment variables, UUID generation and the server's hard-coded credential check are inputs: the environment credentials are parameters of `PluginProvider.ConfiguredFactory`, a fresh UUID is an `Option<string>` parameter, and authentication is a boolean.
- Parsing and printing JSON text are the `parse` and `serialise` parameters. The lemmas that need it assume that `parse` inverts `serialise`. The step from a parsed value to a policy struct is modelled (`Json.StringField`, `Json.BoolField`).
- Json.FoldsTo: folds ASCII letters, the Kelvin sign and the long s only. That is exact for the ASCII tags it is compared with; the preference for an exact match among several fields is left out, because no two tags of one struct are equal up to case.
- The jsondiff-based DiffSuppressFunc of `policy_data` (provider/internal/provider/access.go:28-32) is not modelled.
- The ImportStatePassthrough importers of the SDK resources are not modelled; they copy the ID and nothing else.
- SDK type coercion: a missing attribute reads as the Go zero value, as `d.Get` returns it (`StringAt`, `BoolAt`, `IntAt`, `ListAt`). A value of another kind, which the SDK's schema rules out and on which Go's type assertion would panic, reads the same way. A write of a nil pointer stores a `NilPointer` placeholder that reads back as 0.
- The SDK's own schema checks beyond the ValidateDiagFunc validators: required attributes, and list size limits on the blocks.
- SdkData: the marshal failure path of the four data sources is not modelled. encoding/json cannot fail on a struct of strings and booleans, so that branch is dead.
- `FieldMatches` in client/response.go depends on a regular-expression engine and is not part of this model; `Contains` and `Equal` are.
- provider/internal/provider/provider.go (SDK registration and the client factory), provider/internal/provider/ip.go, provider/main.go and api/cmd/dadcorpd/main.go are not part of this model.
- Common.Lower: only ASCII case folding is modelled. The index lower-cases with Go's strings.ToLower, which also folds non-ASCII letters and can change a string's length.
- ApiStorer.SameRowIffCaseInsensitive: states ASCII case folding as the rule for sharing a row. In Go, IDs such as "É" and "é", or the Kelvin sign and "k", also share a row; the model keeps them apart.
- The go-memdb transactions (begin, abort, commit) are collapsed into the single table update each Storer operation performs.
- The server's `FillDefaults` works on a value the handler owns. It is modelled as an update of a record value rather than through a Go pointer.
- The client for the regions endpoint (client/regions.go) is not part of this model. The server's region table is.
- The data sources' schemas are modelled only through the attributes their Read functions use.

## Findings

| source | as written | input that shows it | evidently intended | confidence | as-written member | corrected member |
|---|---|---|---|---|---|---|
| client/terraform.go:204-234 | Delete builds a GET request for the workspace and reports success when the reply has no errors | any existing workspace ID: the server answers the GET with the workspace, so Delete reports success while the record stays stored | Delete sends DELETE, so the server removes the record | high; not executed | ClientTerraform.DeleteAnswersAsGet | ClientTerraform.DeleteIntendedFollowsRules |
| client/access_policies.go:223-252 | Delete builds a GET request for the policy and reports success when the reply has no errors | any existing policy ID: the server answers the GET with the policy, so Delete reports success while the record stays stored | Delete sends DELETE, so the server removes the record | high; not executed | ClientAccess.DeleteAnswersAsGet | ClientAccess.DeleteIntendedFollowsRules |
| client/consul.go:207-236 | Delete builds a GET request for the cluster and reports success when the reply has no errors | any existing cluster ID: the server answers the GET with the cluster, so Delete reports success while the record stays stored | Delete sends DELETE, so the server removes the record | high; not executed | ClientConsul.DeleteAnswersAsGet | ClientConsul.DeleteIntendedFollowsRules |
| client/nomad.go:217-246 | Delete builds a GET request for the cluster and reports success when the reply has no errors | any existing cluster ID: the server answers the GET with the cluster, so Delete reports success while the record stays stored | Delete sends DELETE, so the server removes the record | high; not executed | ClientNomad.DeleteAnswersAsGet | ClientNomad.DeleteIntendedFollowsRules |
| client/vault.go:200-229 | Delete builds a GET request for the cluster and reports success when the reply has no errors | any existing cluster ID: the server answers the GET with the cluster, so Delete reports success while the record stays stored | Delete sends DELETE, so the server removes the record | high; not executed | ClientVault.DeleteAnswersAsGet | ClientVault.DeleteIntendedFollowsRules |
| api/access.go:73-101 | the POST and PUT handlers decode `policyData` into an untyped field, so it holds a generic decoded value and the type switch always reaches its default branch | POST `{"id":"p","policyData":{"id":"c","read":true}}`: answered 400 invalid_value on `/policyData`, so no access policy can ever be stored | a policy whose data holds one of the four structs with a non-empty ID is stored; how the server was meant to pick the struct is not shown, since no policy type is kept | medium: the intended decoding is uncertain; not executed | ApiAccess.DecodedBodyNeverStored | ApiAccess.StructDataStored |
| provider/internal/provider/terraform.go:204-262 | Update builds the workspace without `d.Id()`, and the client refuses an empty ID before sending anything | any update of an existing workspace: the client always answers with the empty-ID error | the request carries `d.Id()` and reaches the server as a PUT at that ID | high; not executed | SdkTerraform.UpdateAlwaysRejected | SdkTerraform.IntendedUpdateReachesServer |
| provider/internal/provider/terraform.go:158,193,252 | the refresh writes the server's VCS repository under the key "vsc_repo", which is not in the schema, so the SDK drops it | a workspace with no repository configured whose server record has branch "main": after the refresh the next request sends branch "" | the refresh writes `vcs_repo`, so the server's repository reads back | high; not executed | SdkTerraform.VcsNeverRefreshed | SdkTerraform.IntendedWritesReadBack |
