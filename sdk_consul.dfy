// provider/internal/provider/consul.go: the SDK resource dadcorp_consul_cluster.
module SdkConsul {
  import opened Common
  import opened Records
  import opened ClientResponse
  import opened SdkResource
  import TfValues

  /** The top-level attributes of the resource schema. */
  const Schema: set<Field> := {Name, BindAddr, Addresses, Ports}

  const NoAddresses := ConsulAddresses("", "", "", "")
  const NoPorts := ConsulPorts(0, 0, 0, 0, 0, 0, 0, None, None, None, None)

  /** The addresses of the request: the first `addresses` block, or the
      zero struct when there is none. */
  function AddressesFrom(blocks: seq<Data>): ConsulAddresses {
    if |blocks| > 0 then
      var b := FirstBlock(blocks);
      ConsulAddresses(StringAt(b, Dns), StringAt(b, Http), StringAt(b, Https), StringAt(b, Grpc))
    else NoAddresses
  }

  /** The ports of the request: from the first `ports` block, the four
      sidecar/expose ports as pointers to the block's values; the zero
      struct (nil pointers) when there is none. */
  function PortsFrom(blocks: seq<Data>): ConsulPorts {
    if |blocks| > 0 then
      var b := FirstBlock(blocks);
      ConsulPorts(IntAt(b, Dns), IntAt(b, Http), IntAt(b, Https), IntAt(b, Grpc), IntAt(b, SerfLan),
                  IntAt(b, SerfWan), IntAt(b, Server), Some(IntAt(b, SidecarMinPort)),
                  Some(IntAt(b, SidecarMaxPort)), Some(IntAt(b, ExposeMinPort)), Some(IntAt(b, ExposeMaxPort)))
    else NoPorts
  }

  /** The cluster Create sends (no ID). */
  function ClusterFrom(attrs: map<Field, Data>): ConsulCluster {
    ConsulCluster("", StringAt(attrs, Name), StringAt(attrs, BindAddr),
                  AddressesFrom(ListAt(attrs, Addresses)), PortsFrom(ListAt(attrs, Ports)))
  }

  /** The cluster Update sends: the same, with `d.Id()`. */
  function UpdateFrom(id: string, attrs: map<Field, Data>): ConsulCluster {
    ClusterFrom(attrs).(id := id)
  }

  /** A Go *int stored in the state. */
  function Pointer(o: Option<int>): Data {
    if o.Some? then Num(o.value) else NilPointer
  }

  /** The one-element `addresses` list written back. */
  function AddressesBlock(a: ConsulAddresses): Data {
    Items([Block(map[Dns := Text(a.dns), Http := Text(a.http), Https := Text(a.https), Grpc := Text(a.grpc)])])
  }

  /** The one-element `ports` list written back. */
  function PortsBlock(p: ConsulPorts): Data {
    Items([Block(map[Dns := Num(p.dns), Http := Num(p.http), Https := Num(p.https),
                     Grpc := Num(p.grpc), SerfLan := Num(p.serfLan), SerfWan := Num(p.serfWan),
                     Server := Num(p.server), SidecarMinPort := Pointer(p.sidecarMinPort),
                     SidecarMaxPort := Pointer(p.sidecarMaxPort),
                     ExposeMinPort := Pointer(p.exposeMinPort),
                     ExposeMaxPort := Pointer(p.exposeMaxPort)])])
  }

  /** The `d.Set` calls after a successful Create, Read or Update. */
  function Writes(c: ConsulCluster): map<Field, Data> {
    map[Name := Text(c.name), BindAddr := Text(c.bindAddr),
        Addresses := AddressesBlock(c.addresses), Ports := PortsBlock(c.ports)]
  }

  /** The ports that are pointers in the request. */
  predicate PointersSet(p: ConsulPorts) {
    p.sidecarMinPort.Some? && p.sidecarMaxPort.Some? && p.exposeMinPort.Some? && p.exposeMaxPort.Some?
  }

  /** `addresses` is copied only when its block is present, and the four
      sidecar/expose ports are non-nil exactly when `ports` is present. */
  lemma BlocksOnlyWhenPresent(attrs: map<Field, Data>)
    ensures ListAt(attrs, Addresses) == [] ==> ClusterFrom(attrs).addresses == NoAddresses
    ensures ListAt(attrs, Ports) == [] ==> ClusterFrom(attrs).ports == NoPorts
    ensures PointersSet(ClusterFrom(attrs).ports) <==> ListAt(attrs, Ports) != []
  {
  }

  /** The `addresses` block written back reads back as the same addresses. */
  lemma AddressesReadBack(a: ConsulAddresses)
    ensures AddressesFrom(AddressesBlock(a).items) == a
  {
  }

  /** The `ports` block written back reads back as the same ports when the
      four pointer ports are set. */
  lemma PortsReadBack(p: ConsulPorts)
    requires PointersSet(p)
    ensures PortsFrom(PortsBlock(p).items) == p
  {
  }

  /** A state refreshed from a cluster whose four pointer ports are set
      rebuilds that cluster for the next Update. */
  lemma WritesReadBack(attrs: map<Field, Data>, schema: set<Field>, c: ConsulCluster)
    requires Schema <= schema
    requires PointersSet(c.ports)
    ensures UpdateFrom(c.id, attrs + Kept(Writes(c), schema)) == c
  {
    var a := attrs + Kept(Writes(c), schema);
    assert Kept(Writes(c), schema) == Writes(c);
    assert StringAt(a, Name) == c.name && StringAt(a, BindAddr) == c.bindAddr;
    assert ListAt(a, Addresses) == AddressesBlock(c.addresses).items;
    assert ListAt(a, Ports) == PortsBlock(c.ports).items;
    AddressesReadBack(c.addresses);
    PortsReadBack(c.ports);
  }

  /** A nil pointer port does not survive the refresh: the next request
      sends a pointer to 0 in its place. */
  lemma NilPortResentAsZero(attrs: map<Field, Data>, schema: set<Field>, c: ConsulCluster)
    requires Schema <= schema
    requires c.ports.sidecarMinPort.None?
    ensures UpdateFrom(c.id, attrs + Kept(Writes(c), schema)).ports.sidecarMinPort == Some(0)
  {
    var a := attrs + Kept(Writes(c), schema);
    assert Kept(Writes(c), schema) == Writes(c);
    assert ListAt(a, Ports) == PortsBlock(c.ports).items;
    NilPortReadsZero(c.ports);
  }

  lemma NilPortReadsZero(p: ConsulPorts)
    requires p.sidecarMinPort.None?
    ensures PortsFrom(PortsBlock(p).items).sidecarMinPort == Some(0)
  {
    var b := FirstBlock(PortsBlock(p).items);
    assert b[SidecarMinPort] == NilPointer;
  }

  /** After a successful Create, the ID is the response's, and an Update
      straight after sends the created cluster back unchanged. */
  lemma CreateThenUpdate(schema: set<Field>, id: string, attrs: map<Field, Data>, client: Service<ConsulCluster>)
    requires Schema <= schema
    ensures var e := Creating(id, attrs, schema, Some(client), Ok(ClusterFrom(attrs)), (c: ConsulCluster) => c.id, Writes);
      e.failure.None? && PointersSet(client.create(ClusterFrom(attrs)).value.ports) ==>
        var created := client.create(ClusterFrom(attrs)).value;
        e.id == created.id && UpdateFrom(e.id, e.attrs) == created
  {
    var r := client.create(ClusterFrom(attrs));
    if r.Ok? && PointersSet(r.value.ports) {
      WritesReadBack(attrs, schema, r.value);
    }
  }

  method CreateCluster(d: ResourceData, client: Option<Service<ConsulCluster>>)
    returns (f: Option<Failure>, sent: TfValues.Call<ConsulCluster>)
    modifies d
    ensures Effect(f, sent, d.id, d.attrs) ==
      Creating(old(d.id), old(d.attrs), d.schema, client, Ok(ClusterFrom(old(d.attrs))), (c: ConsulCluster) => c.id, Writes)
  {
    if client.None? {
      return Some(ClientNotBuilt), TfValues.NoCall;
    }
    var cluster := ClusterFrom(d.attrs);
    sent := TfValues.CreateCall(cluster);
    var resp := client.value.create(cluster);
    if resp.Err? {
      return Some(CallFailed(resp.error)), sent;
    }
    d.SetId(resp.value.id);
    d.SetAll(Writes(resp.value));
    f := None;
  }

  method ReadCluster(d: ResourceData, client: Option<Service<ConsulCluster>>)
    returns (f: Option<Failure>, sent: TfValues.Call<ConsulCluster>)
    modifies d
    ensures Effect(f, sent, d.id, d.attrs) == Reading(old(d.id), old(d.attrs), d.schema, client, Writes)
  {
    if client.None? {
      return Some(ClientNotBuilt), TfValues.NoCall;
    }
    sent := TfValues.GetCall(d.id);
    var resp := client.value.get(d.id);
    if resp.Err? {
      if resp.error == NotFoundError {
        d.SetId("");
        return None, sent;
      }
      return Some(CallFailed(resp.error)), sent;
    }
    d.SetAll(Writes(resp.value));
    f := None;
  }

  method UpdateCluster(d: ResourceData, client: Option<Service<ConsulCluster>>)
    returns (f: Option<Failure>, sent: TfValues.Call<ConsulCluster>)
    modifies d
    ensures Effect(f, sent, d.id, d.attrs) ==
      Updating(old(d.id), old(d.attrs), d.schema, client, Ok(UpdateFrom(old(d.id), old(d.attrs))), Writes)
  {
    if client.None? {
      return Some(ClientNotBuilt), TfValues.NoCall;
    }
    var cluster := UpdateFrom(d.id, d.attrs);
    sent := TfValues.UpdateCall(cluster);
    var resp := client.value.update(cluster);
    if resp.Err? {
      return Some(CallFailed(resp.error)), sent;
    }
    d.SetAll(Writes(resp.value));
    f := None;
  }

  method DeleteCluster(d: ResourceData, client: Option<Service<ConsulCluster>>)
    returns (f: Option<Failure>, sent: TfValues.Call<ConsulCluster>)
    ensures (f, sent) == Deleting(d.id, client)
  {
    if client.None? {
      return Some(ClientNotBuilt), TfValues.NoCall;
    }
    sent := TfValues.DeleteCall(d.id);
    var err := client.value.delete(d.id);
    f := if err.Some? then Some(CallFailed(err.value)) else None;
  }
}
