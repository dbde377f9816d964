// api/vault.go: defaults for a Vault cluster, the region/product check of
// the POST handler, and the decisions the POST and PUT handlers take before
// storing a cluster.
module ApiVault {
  import opened Common
  import opened Protocol
  import opened Records
  import opened ApiRegions
  import opened ApiStorer
  import opened ApiHandlers

  /** Every field FillDefaults fills is set. */
  predicate Defaulted(c: VaultCluster) {
    c.defaultLeaseTtl != "" && c.maxLeaseTtl != "" && c.tcpListener.address != "" && c.tcpListener.clusterAddress != ""
  }

  /** The cluster with its defaults filled in: only empty fields change. */
  function Defaults(c: VaultCluster): (r: VaultCluster)
    ensures Defaulted(r)
    ensures r.id == c.id && r.name == c.name && r.region == c.region
    ensures r.defaultLeaseTtl == (if c.defaultLeaseTtl == "" then "768h" else c.defaultLeaseTtl)
    ensures r.maxLeaseTtl == (if c.maxLeaseTtl == "" then "768h" else c.maxLeaseTtl)
    ensures r.tcpListener.address == (if c.tcpListener.address == "" then "127.0.0.1:8200" else c.tcpListener.address)
    ensures r.tcpListener.clusterAddress == (if c.tcpListener.clusterAddress == "" then "127.0.0.1:8201" else c.tcpListener.clusterAddress)
    ensures Defaulted(c) ==> r == c
  {
    VaultCluster(
      id := c.id,
      name := c.name,
      region := c.region,
      defaultLeaseTtl := if c.defaultLeaseTtl == "" then "768h" else c.defaultLeaseTtl,
      maxLeaseTtl := if c.maxLeaseTtl == "" then "768h" else c.maxLeaseTtl,
      tcpListener := TcpListener(
        address := if c.tcpListener.address == "" then "127.0.0.1:8200" else c.tcpListener.address,
        clusterAddress := if c.tcpListener.clusterAddress == "" then "127.0.0.1:8201" else c.tcpListener.clusterAddress))
  }

  /** Applying the defaults twice is applying them once. */
  lemma DefaultsIdempotent(c: VaultCluster)
    ensures Defaults(Defaults(c)) == Defaults(c)
  {
    assert Defaulted(Defaults(c));
  }

  /** FillDefaults, one field at a time. */
  method FillDefaults(c: VaultCluster) returns (r: VaultCluster)
    ensures r == Defaults(c)
  {
    r := c;
    if r.defaultLeaseTtl == "" {
      r := r.(defaultLeaseTtl := "768h");
    }
    if r.maxLeaseTtl == "" {
      r := r.(maxLeaseTtl := "768h");
    }
    if r.tcpListener.address == "" {
      r := r.(tcpListener := r.tcpListener.(address := "127.0.0.1:8200"));
    }
    if r.tcpListener.clusterAddress == "" {
      r := r.(tcpListener := r.tcpListener.(clusterAddress := "127.0.0.1:8201"));
    }
  }

  /** The outcome of looking a region up in the table. */
  datatype RegionVerdict = RegionAvailable | RegionDenied | RegionUnknown

  /** A region is denied when some entry with its ID lacks Vault, unknown when
      no entry has its ID, and available otherwise. */
  function RegionCheck(regions: seq<Region>, region: string): RegionVerdict {
    if exists j :: 0 <= j < |regions| && regions[j].id == region && !regions[j].products.vault then RegionDenied
    else if exists j :: 0 <= j < |regions| && regions[j].id == region then RegionAvailable
    else RegionUnknown
  }

  /** The POST handler's loop over the region table: it remembers that the
      region was seen and stops at the first matching entry without Vault. */
  method ScanRegions(regions: seq<Region>, region: string) returns (v: RegionVerdict)
    ensures v == RegionCheck(regions, region)
  {
    var valid := false;
    var i := 0;
    while i < |regions|
      invariant 0 <= i <= |regions|
      invariant valid <==> exists j :: 0 <= j < i && regions[j].id == region
      invariant forall j :: 0 <= j < i && regions[j].id == region ==> regions[j].products.vault
    {
      if regions[i].id == region {
        valid := true;
        if !regions[i].products.vault {
          return RegionDenied;
        }
      }
      i := i + 1;
    }
    if !valid {
      return RegionUnknown;
    }
    v := RegionAvailable;
  }

  /** On the server's own table: a region outside the eight is unknown; one of
      the six outside us-va is denied to an unauthenticated caller; every
      other listed region is available. */
  lemma RegionCheckOnTable(authenticated: bool, region: string)
    ensures RegionCheck(GetRegions(authenticated), region) ==
      if region !in RegionIds then RegionUnknown
      else if authenticated || IsHomeRegion(region) then RegionAvailable
      else RegionDenied
  {
    var regions := GetRegions(authenticated);
    if region in RegionIds {
      var j :| 0 <= j < |RegionIds| && RegionIds[j] == region;
      assert regions[j].id == region;
    } else {
      forall j | 0 <= j < |regions|
        ensures regions[j].id != region
      {
        assert regions[j].id == RegionIds[j];
      }
    }
  }

  /** The POST checks, in order: the body decodes, the region is available for
      Vault (denied before unknown), an empty ID is replaced by a fresh UUID,
      the name is present. */
  function PostDecision(body: Option<VaultCluster>, verdict: RegionVerdict, uuid: Option<string>): (d: Decision<VaultCluster>)
    ensures body.None? ==> d == Reject(StatusBadRequest, [InvalidFormatError])
    ensures body.Some? && verdict == RegionDenied ==> d == Reject(StatusBadRequest, [FieldError(AccessDenied, "/region")])
    ensures body.Some? && verdict == RegionUnknown ==> d == Reject(StatusBadRequest, [FieldError(InvalidValue, "/region")])
    ensures body.Some? && verdict == RegionAvailable && body.value.id == "" && uuid.None? ==> d == Reject(StatusServerError, [ServerError])
    ensures d.Proceed? <==> body.Some? && verdict == RegionAvailable && (body.value.id != "" || uuid.Some?) && body.value.name != ""
    ensures d.Proceed? ==> d.id == (if body.value.id != "" then body.value.id else uuid.value)
    ensures d.Proceed? ==> d.record == body.value.(id := d.id)
  {
    if body.None? then Reject(StatusBadRequest, [InvalidFormatError])
    else if verdict.RegionDenied? then Reject(StatusBadRequest, [FieldError(AccessDenied, "/region")])
    else if verdict.RegionUnknown? then Reject(StatusBadRequest, [FieldError(InvalidValue, "/region")])
    else
      var c := body.value;
      if c.id == "" && uuid.None? then Reject(StatusServerError, [ServerError])
      else
        var id := if c.id == "" then uuid.value else c.id;
        if c.name == "" then Reject(StatusBadRequest, [FieldError(Missing, "/name")])
        else Proceed(id, c.(id := id))
  }

  /** The region verdict the POST handler reaches for a body. */
  function BodyVerdict(body: Option<VaultCluster>, authenticated: bool): RegionVerdict {
    if body.None? then RegionAvailable else RegionCheck(GetRegions(authenticated), body.value.region)
  }

  /** The PUT checks, in order: the body decodes, a non-empty body ID equals
      the path ID, the name is present. There is no region check. */
  function PutDecision(pathId: string, body: Option<VaultCluster>): (d: Decision<VaultCluster>)
    ensures body.None? ==> d == Reject(StatusBadRequest, [InvalidFormatError])
    ensures body.Some? && body.value.id != "" && body.value.id != pathId ==> d == Reject(StatusBadRequest, [IdConflict])
    ensures d.Proceed? <==> body.Some? && (body.value.id == "" || body.value.id == pathId) && body.value.name != ""
    ensures d.Reject? && body.Some? && (body.value.id == "" || body.value.id == pathId) ==> d == Reject(StatusBadRequest, [FieldError(Missing, "/name")])
    ensures d.Proceed? ==> d.id == body.value.id && d.record == body.value
  {
    if body.None? then Reject(StatusBadRequest, [InvalidFormatError])
    else
      var c := body.value;
      if c.id != "" && c.id != pathId then Reject(StatusBadRequest, [IdConflict])
      else if c.name == "" then Reject(StatusBadRequest, [FieldError(Missing, "/name")])
      else Proceed(c.id, c)
  }

  /** handlePostVaultCluster: the region is looked up in the table for the
      caller; a rejection stores nothing; otherwise the defaulted cluster is
      created under its ID. */
  method Post(t: Table<VaultCluster>, body: Option<VaultCluster>, authenticated: bool, uuid: Option<string>) returns (resp: Response<VaultCluster>)
    modifies t
    ensures var d := PostDecision(body, BodyVerdict(body, authenticated), uuid);
      d.Reject? ==> resp == Rejection(d) && t.rows == old(t.rows)
    ensures var d := PostDecision(body, BodyVerdict(body, authenticated), uuid);
      d.Proceed? ==> CreateOutcome(old(t.rows), d.id, Defaults(d.record), resp, t.rows)
  {
    var verdict := RegionAvailable;
    if body.Some? {
      verdict := ScanRegions(GetRegions(authenticated), body.value.region);
    }
    var d := PostDecision(body, verdict, uuid);
    if d.Reject? {
      return Rejection(d);
    }
    var rec := FillDefaults(d.record);
    resp := StoreCreate(t, d.id, rec);
  }

  /** handlePutVaultCluster. */
  method Put(t: Table<VaultCluster>, pathId: string, body: Option<VaultCluster>) returns (resp: Response<VaultCluster>)
    modifies t
    ensures PutDecision(pathId, body).Reject? ==> resp == Rejection(PutDecision(pathId, body)) && t.rows == old(t.rows)
    ensures var d := PutDecision(pathId, body);
      d.Proceed? ==> UpdateOutcome(old(t.rows), d.id, Defaults(d.record), resp, t.rows)
  {
    var d := PutDecision(pathId, body);
    if d.Reject? {
      return Rejection(d);
    }
    var rec := FillDefaults(d.record);
    resp := StoreUpdate(t, d.id, rec);
  }
}
