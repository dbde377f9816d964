// api/regions.go: the region table and which products each region offers.
// Whether the caller is authenticated is an input; the credential check
// itself (api/api.go) is not part of this model.
module ApiRegions {
  datatype Products = Products(vault: bool, terraform: bool, nomad: bool, consul: bool)

  datatype Region = Region(id: string, products: Products)

  /** The eight region IDs, in the order the table lists them. */
  const RegionIds: seq<string> :=
    ["us-va-1", "us-va-2", "us-or-1", "us-or-2", "gb-lon-1", "gb-lon-2", "jp-tok-1", "jp-tok-2"]

  /** The two regions that offer every product to an authenticated caller. */
  predicate IsHomeRegion(id: string) {
    id == "us-va-1" || id == "us-va-2"
  }

  /** An entry of the six regions outside us-va: Consul always, Vault only
      when authenticated, never Nomad or Terraform. */
  function Remote(id: string, authenticated: bool): Region {
    Region(id, Products(vault := authenticated, terraform := false, nomad := false, consul := true))
  }

  /** The region table. Consul is everywhere; us-va-1/2 always offer Vault and
      offer Nomad and Terraform only when authenticated; the other six offer
      Vault only when authenticated and never Nomad or Terraform. */
  function GetRegions(authenticated: bool): (r: seq<Region>)
    ensures |r| == |RegionIds| == 8
    ensures forall i :: 0 <= i < |r| ==> r[i].id == RegionIds[i]
    ensures forall i :: 0 <= i < |r| ==> r[i].products.consul
    ensures forall i :: 0 <= i < |r| ==> (r[i].products.vault <==> authenticated || IsHomeRegion(r[i].id))
    ensures forall i :: 0 <= i < |r| ==> (r[i].products.nomad <==> authenticated && IsHomeRegion(r[i].id))
    ensures forall i :: 0 <= i < |r| ==> (r[i].products.terraform <==> authenticated && IsHomeRegion(r[i].id))
  {
    [Region("us-va-1", Products(vault := true, terraform := authenticated, nomad := authenticated, consul := true)),
     Region("us-va-2", Products(vault := true, terraform := authenticated, nomad := authenticated, consul := true)),
     Remote("us-or-1", authenticated),
     Remote("us-or-2", authenticated),
     Remote("gb-lon-1", authenticated),
     Remote("gb-lon-2", authenticated),
     Remote("jp-tok-1", authenticated),
     Remote("jp-tok-2", authenticated)]
  }

  /** The region IDs are pairwise distinct, so each ID names one entry. */
  lemma RegionIdsDistinct(i: int, j: int)
    requires 0 <= i < |RegionIds| && 0 <= j < |RegionIds| && i != j
    ensures RegionIds[i] != RegionIds[j]
  {
    var ids := RegionIds;
    assert ids[0][3] == 'v' && ids[1][3] == 'v';
    assert ids[0][6] != ids[1][6];
    assert ids[2][3] == 'o' && ids[3][3] == 'o';
    assert ids[2][6] != ids[3][6];
    assert ids[4][0] == 'g' && ids[5][0] == 'g';
    assert ids[4][7] != ids[5][7];
    assert ids[6][0] == 'j' && ids[7][0] == 'j';
    assert ids[6][7] != ids[7][7];
  }
}
