// provider/internal/provider/vault.go: the SDK resource dadcorp_vault_cluster.
module SdkVault {
  import opened Common
  import opened Records
  import opened ClientResponse
  import opened SdkResource
  import TfValues

  /** The region IDs the region validator accepts. */
  const Regions: seq<string> := ["us-va-1", "us-va-2"]

  /** The top-level attributes of the resource schema. */
  const Schema: set<Field> := {Name, Region, DefaultLeaseTtl, MaxLeaseTtl, TcpListenerBlock}

  /** The ValidateDiagFunc of `region`. */
  method ValidateRegion(v: Data) returns (f: Option<Failure>)
    ensures f.None? <==> v == Text("us-va-1") || v == Text("us-va-2")
    ensures !v.Text? ==> f == Some(InvalidType)
    ensures v.Text? && f.Some? ==> f == Some(InvalidRegion)
  {
    if !v.Text? {
      return Some(InvalidType);
    }
    var found := Listed(Regions, v.s);
    if found {
      return None;
    }
    return Some(InvalidRegion);
  }

  /** The listener of the request: the first tcp_listener block's fields,
      or empty strings when the block list is empty. */
  function Listener(blocks: seq<Data>): TcpListener {
    if |blocks| > 0 then
      var b := FirstBlock(blocks);
      TcpListener(StringAt(b, Address), StringAt(b, ClusterAddress))
    else TcpListener("", "")
  }

  /** The cluster Create sends, read from the attributes (no ID). */
  function ClusterFrom(attrs: map<Field, Data>): VaultCluster {
    VaultCluster("", StringAt(attrs, Name), StringAt(attrs, Region), StringAt(attrs, DefaultLeaseTtl),
                 StringAt(attrs, MaxLeaseTtl), Listener(ListAt(attrs, TcpListenerBlock)))
  }

  /** The cluster Update sends: the same, with `d.Id()`. */
  function UpdateFrom(id: string, attrs: map<Field, Data>): VaultCluster {
    ClusterFrom(attrs).(id := id)
  }

  /** The `d.Set` calls after a successful Create, Read or Update: every
      attribute, the listener as a one-element block list. */
  function Writes(c: VaultCluster): map<Field, Data> {
    map[Name := Text(c.name), Region := Text(c.region), DefaultLeaseTtl := Text(c.defaultLeaseTtl),
        MaxLeaseTtl := Text(c.maxLeaseTtl),
        TcpListenerBlock := Items([Block(map[Address := Text(c.tcpListener.address),
                                             ClusterAddress := Text(c.tcpListener.clusterAddress)])])]
  }

  /** The listener fields are sent only when the block list is non-empty. */
  lemma ListenerOnlyWhenPresent(attrs: map<Field, Data>)
    ensures var blocks := ListAt(attrs, TcpListenerBlock);
      && (blocks == [] ==> ClusterFrom(attrs).tcpListener == TcpListener("", ""))
      && (blocks != [] && blocks[0].Block? ==>
            ClusterFrom(attrs).tcpListener ==
              TcpListener(StringAt(blocks[0].fields, Address), StringAt(blocks[0].fields, ClusterAddress)))
  {
  }

  /** The write-back covers every schema attribute. */
  lemma WritesCoverSchema(c: VaultCluster)
    ensures Writes(c).Keys == Schema
  {
  }

  /** A state refreshed from a cluster rebuilds that cluster: the next
      Update sends exactly the cluster the server answered with. */
  lemma WritesReadBack(attrs: map<Field, Data>, schema: set<Field>, c: VaultCluster)
    requires Schema <= schema
    ensures UpdateFrom(c.id, attrs + Kept(Writes(c), schema)) == c
  {
    var a := attrs + Kept(Writes(c), schema);
    assert StringAt(a, Name) == c.name;
    assert ListAt(a, TcpListenerBlock) == Writes(c)[TcpListenerBlock].items;
  }

  /** After a successful Create, the ID is the response's, and an Update
      straight after sends the created cluster back unchanged. */
  lemma CreateThenUpdate(schema: set<Field>, id: string, attrs: map<Field, Data>, client: Service<VaultCluster>)
    requires Schema <= schema
    ensures var e := Creating(id, attrs, schema, Some(client), Ok(ClusterFrom(attrs)), (c: VaultCluster) => c.id, Writes);
      e.failure.None? ==>
        var created := client.create(ClusterFrom(attrs)).value;
        e.id == created.id && UpdateFrom(e.id, e.attrs) == created
  {
    var r := client.create(ClusterFrom(attrs));
    if r.Ok? {
      WritesReadBack(attrs, schema, r.value);
    }
  }

  method CreateCluster(d: ResourceData, client: Option<Service<VaultCluster>>)
    returns (f: Option<Failure>, sent: TfValues.Call<VaultCluster>)
    modifies d
    ensures Effect(f, sent, d.id, d.attrs) ==
      Creating(old(d.id), old(d.attrs), d.schema, client, Ok(ClusterFrom(old(d.attrs))), (c: VaultCluster) => c.id, Writes)
  {
    if client.None? {
      return Some(ClientNotBuilt), TfValues.NoCall;
    }
    var cluster := ClusterFrom(d.attrs);
    sent := TfValues.CreateCall(cluster);
    var resp := client.value.create(cluster);
    if resp.Err? {
      return Some(CallFailed(resp.error)), sent;
    }
    d.SetId(resp.value.id);
    d.SetAll(Writes(resp.value));
    f := None;
  }

  method ReadCluster(d: ResourceData, client: Option<Service<VaultCluster>>)
    returns (f: Option<Failure>, sent: TfValues.Call<VaultCluster>)
    modifies d
    ensures Effect(f, sent, d.id, d.attrs) == Reading(old(d.id), old(d.attrs), d.schema, client, Writes)
  {
    if client.None? {
      return Some(ClientNotBuilt), TfValues.NoCall;
    }
    sent := TfValues.GetCall(d.id);
    var resp := client.value.get(d.id);
    if resp.Err? {
      if resp.error == NotFoundError {
        d.SetId("");
        return None, sent;
      }
      return Some(CallFailed(resp.error)), sent;
    }
    d.SetAll(Writes(resp.value));
    f := None;
  }

  method UpdateCluster(d: ResourceData, client: Option<Service<VaultCluster>>)
    returns (f: Option<Failure>, sent: TfValues.Call<VaultCluster>)
    modifies d
    ensures Effect(f, sent, d.id, d.attrs) ==
      Updating(old(d.id), old(d.attrs), d.schema, client, Ok(UpdateFrom(old(d.id), old(d.attrs))), Writes)
  {
    if client.None? {
      return Some(ClientNotBuilt), TfValues.NoCall;
    }
    var cluster := UpdateFrom(d.id, d.attrs);
    sent := TfValues.UpdateCall(cluster);
    var resp := client.value.update(cluster);
    if resp.Err? {
      return Some(CallFailed(resp.error)), sent;
    }
    d.SetAll(Writes(resp.value));
    f := None;
  }

  method DeleteCluster(d: ResourceData, client: Option<Service<VaultCluster>>)
    returns (f: Option<Failure>, sent: TfValues.Call<VaultCluster>)
    ensures (f, sent) == Deleting(d.id, client)
  {
    if client.None? {
      return Some(ClientNotBuilt), TfValues.NoCall;
    }
    sent := TfValues.DeleteCall(d.id);
    var err := client.value.delete(d.id);
    f := if err.Some? then Some(CallFailed(err.value)) else None;
  }
}
