// api/storer.go: the Storer, one table per kind. The handlers of each kind
// work on their own table only (every handler's `modifies` names one table),
// so an operation on one kind never changes another.
module ApiServer {
  import opened Common
  import opened Records
  import opened ApiStorer
  import ApiAccess

  class Storer {
    const accessPolicies: Table<ApiAccess.AccessPolicy>
    const nomadClusters: Table<NomadCluster>
    const vaultClusters: Table<VaultCluster>
    const consulClusters: Table<ConsulCluster>
    const terraformWorkspaces: Table<TerraformWorkspace>

    /** Each table holds its own kind. */
    predicate Valid() {
      && accessPolicies.kind == AccessPolicyKind
      && nomadClusters.kind == NomadClusterKind
      && vaultClusters.kind == VaultClusterKind
      && consulClusters.kind == ConsulClusterKind
      && terraformWorkspaces.kind == TerraformWorkspaceKind
    }

    /** The tables are five distinct objects, so a change to one table (all a
        handler may modify) leaves the other four as they were. */
    lemma TablesDistinct()
      requires Valid()
      ensures |{accessPolicies as object, nomadClusters, vaultClusters, consulClusters, terraformWorkspaces}| == 5
    {
      var a: object, n: object, v: object, c: object, w: object :=
        accessPolicies, nomadClusters, vaultClusters, consulClusters, terraformWorkspaces;
      assert a != n && a != v && a != c && a != w;
      assert n != v && n != c && n != w;
      assert v != c && v != w && c != w;
      assert {a, n, v, c, w} == {a} + {n} + {v} + {c} + {w};
    }

    /** NewStorer: five empty tables. */
    constructor ()
      ensures Valid()
      ensures fresh(accessPolicies) && fresh(nomadClusters) && fresh(vaultClusters)
      ensures fresh(consulClusters) && fresh(terraformWorkspaces)
      ensures accessPolicies.rows == map[] && nomadClusters.rows == map[] && vaultClusters.rows == map[]
      ensures consulClusters.rows == map[] && terraformWorkspaces.rows == map[]
    {
      accessPolicies := new Table(AccessPolicyKind);
      nomadClusters := new Table(NomadClusterKind);
      vaultClusters := new Table(VaultClusterKind);
      consulClusters := new Table(ConsulClusterKind);
      terraformWorkspaces := new Table(TerraformWorkspaceKind);
    }
  }
}
