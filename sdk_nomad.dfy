// provider/internal/provider/nomad.go: the SDK resource dadcorp_nomad_cluster.
module SdkNomad {
  import opened Common
  import opened Records
  import opened ClientResponse
  import opened SdkResource
  import TfValues

  /** The top-level attributes of the resource schema. */
  const Schema: set<Field> := {Name, Datacenter, BindAddr, Advertise, Ports, Server}

  const NoAdvertise := NomadAdvertise("", "", "")
  const NoPorts := NomadPorts(0, 0, 0)
  const NoServer := NomadServer(ServerJoin(None, "", 0, None))

  function AdvertiseFrom(blocks: seq<Data>): NomadAdvertise {
    if |blocks| > 0 then
      var b := FirstBlock(blocks);
      NomadAdvertise(StringAt(b, Http), StringAt(b, Rpc), StringAt(b, Serf))
    else NoAdvertise
  }

  function PortsFrom(blocks: seq<Data>): NomadPorts {
    if |blocks| > 0 then
      var b := FirstBlock(blocks);
      NomadPorts(IntAt(b, Http), IntAt(b, Rpc), IntAt(b, Serf))
    else NoPorts
  }

  /** The server_join block of the request, given the first server_join
      block: both lists converted element by element (non-nil, possibly
      empty). */
  function JoinFrom(j: map<Field, Data>): ServerJoin {
    ServerJoin(Some(Strings(ListAt(j, RetryJoin))), StringAt(j, RetryInterval), IntAt(j, RetryMax),
               Some(Strings(ListAt(j, StartJoin))))
  }

  /** The server of the request: set only when there is a `server` block
      holding a `server_join` block. */
  function ServerFrom(servers: seq<Data>): NomadServer {
    if |servers| > 0 then
      var joins := ListAt(FirstBlock(servers), ServerJoinBlock);
      if |joins| > 0 then NomadServer(JoinFrom(FirstBlock(joins))) else NoServer
    else NoServer
  }

  /** The cluster Create sends (no ID). */
  function ClusterFrom(attrs: map<Field, Data>): NomadCluster {
    NomadCluster("", StringAt(attrs, Name), StringAt(attrs, Datacenter), StringAt(attrs, BindAddr),
                 AdvertiseFrom(ListAt(attrs, Advertise)), PortsFrom(ListAt(attrs, Ports)),
                 ServerFrom(ListAt(attrs, Server)))
  }

  /** The cluster Update sends: the same, with `d.Id()`. */
  function UpdateFrom(id: string, attrs: map<Field, Data>): NomadCluster {
    ClusterFrom(attrs).(id := id)
  }

  /** The request as the Go code builds it, the two join lists by loops. */
  method BuildCluster(id: string, attrs: map<Field, Data>) returns (c: NomadCluster)
    ensures c == ClusterFrom(attrs).(id := id)
  {
    c := NomadCluster(id, StringAt(attrs, Name), StringAt(attrs, Datacenter), StringAt(attrs, BindAddr),
                      AdvertiseFrom(ListAt(attrs, Advertise)), PortsFrom(ListAt(attrs, Ports)), NoServer);
    var servers := ListAt(attrs, Server);
    if |servers| > 0 {
      var joins := ListAt(FirstBlock(servers), ServerJoinBlock);
      if |joins| > 0 {
        var j := FirstBlock(joins);
        var retryJoin := CollectStrings(ListAt(j, RetryJoin));
        var startJoin := CollectStrings(ListAt(j, StartJoin));
        c := c.(server := NomadServer(ServerJoin(Some(retryJoin), StringAt(j, RetryInterval),
                                                 IntAt(j, RetryMax), Some(startJoin))));
      }
    }
  }

  /** The one-element `advertise` list written back. */
  function AdvertiseBlock(a: NomadAdvertise): Data {
    Items([Block(map[Http := Text(a.http), Rpc := Text(a.rpc), Serf := Text(a.serf)])])
  }

  /** The one-element `ports` list written back. */
  function PortsBlock(p: NomadPorts): Data {
    Items([Block(map[Http := Num(p.http), Rpc := Num(p.rpc), Serf := Num(p.serf)])])
  }

  /** The server_join block written back, its lists as string lists. */
  function JoinBlock(sj: ServerJoin): map<Field, Data> {
    map[RetryJoin := TextList(sj.retryJoin), StartJoin := TextList(sj.startJoin),
        RetryMax := Num(sj.retryMax), RetryInterval := Text(sj.retryInterval)]
  }

  /** The one-element `server` list written back, server_join nested
      inside it as a one-element list. */
  function ServerBlock(s: NomadServer): Data {
    Items([Block(map[ServerJoinBlock := Items([Block(JoinBlock(s.serverJoin))])])])
  }

  /** The `d.Set` calls after a successful Create, Read or Update: every
      block as a one-element list. */
  function Writes(c: NomadCluster): map<Field, Data> {
    map[Name := Text(c.name), BindAddr := Text(c.bindAddr), Datacenter := Text(c.datacenter),
        Advertise := AdvertiseBlock(c.advertise), Ports := PortsBlock(c.ports), Server := ServerBlock(c.server)]
  }

  /** `advertise` and `ports` are copied only when present, and server_join
      is applied exactly when both the server and the server_join lists are
      non-empty. */
  lemma BlocksOnlyWhenPresent(attrs: map<Field, Data>)
    ensures ListAt(attrs, Advertise) == [] ==> ClusterFrom(attrs).advertise == NoAdvertise
    ensures ListAt(attrs, Ports) == [] ==> ClusterFrom(attrs).ports == NoPorts
    ensures var servers := ListAt(attrs, Server);
      ClusterFrom(attrs).server != NoServer <==>
        servers != [] && ListAt(FirstBlock(servers), ServerJoinBlock) != []
  {
  }

  /** The join lists are copied element by element, in order. */
  lemma JoinListsInOrder(j: map<Field, Data>)
    ensures var sj := JoinFrom(j);
      && |sj.retryJoin.value| == |ListAt(j, RetryJoin)|
      && (forall i :: 0 <= i < |ListAt(j, RetryJoin)| ==> sj.retryJoin.value[i] == StringOf(ListAt(j, RetryJoin)[i]))
      && |sj.startJoin.value| == |ListAt(j, StartJoin)|
      && (forall i :: 0 <= i < |ListAt(j, StartJoin)| ==> sj.startJoin.value[i] == StringOf(ListAt(j, StartJoin)[i]))
  {
    StringsElementwise(ListAt(j, RetryJoin));
    StringsElementwise(ListAt(j, StartJoin));
  }

  /** The join block written back reads back as the same server_join, when
      both lists were non-nil. */
  lemma JoinReadsBack(sj: ServerJoin)
    requires sj.retryJoin.Some? && sj.startJoin.Some?
    ensures JoinFrom(JoinBlock(sj)) == sj
  {
    TextListReadsBack(sj.retryJoin.value);
    TextListReadsBack(sj.startJoin.value);
  }

  /** The `server` block written back reads back as the same server. */
  lemma ServerReadsBack(s: NomadServer)
    requires s.serverJoin.retryJoin.Some? && s.serverJoin.startJoin.Some?
    ensures ServerFrom(ServerBlock(s).items) == s
  {
    JoinReadsBack(s.serverJoin);
  }

  /** A state refreshed from a cluster with non-nil join lists rebuilds that
      cluster for the next Update. */
  lemma WritesReadBack(attrs: map<Field, Data>, schema: set<Field>, c: NomadCluster)
    requires Schema <= schema
    requires c.server.serverJoin.retryJoin.Some? && c.server.serverJoin.startJoin.Some?
    ensures UpdateFrom(c.id, attrs + Kept(Writes(c), schema)) == c
  {
    var a := attrs + Kept(Writes(c), schema);
    assert Kept(Writes(c), schema) == Writes(c);
    assert StringAt(a, Name) == c.name && StringAt(a, BindAddr) == c.bindAddr && StringAt(a, Datacenter) == c.datacenter;
    assert ListAt(a, Advertise) == AdvertiseBlock(c.advertise).items;
    assert ListAt(a, Ports) == PortsBlock(c.ports).items;
    assert ListAt(a, Server) == ServerBlock(c.server).items;
    AdvertiseReadsBack(c.advertise);
    PortsReadBack(c.ports);
    ServerReadsBack(c.server);
  }

  lemma AdvertiseReadsBack(v: NomadAdvertise)
    ensures AdvertiseFrom(AdvertiseBlock(v).items) == v
  {
  }

  lemma PortsReadBack(p: NomadPorts)
    ensures PortsFrom(PortsBlock(p).items) == p
  {
  }

  /** After a successful Create, the ID is the response's, and an Update
      straight after sends the created cluster back unchanged. */
  lemma CreateThenUpdate(schema: set<Field>, id: string, attrs: map<Field, Data>, client: Service<NomadCluster>)
    requires Schema <= schema
    ensures var e := Creating(id, attrs, schema, Some(client), Ok(ClusterFrom(attrs)), (c: NomadCluster) => c.id, Writes);
      var created := client.create(ClusterFrom(attrs));
      e.failure.None? && created.value.server.serverJoin.retryJoin.Some? && created.value.server.serverJoin.startJoin.Some? ==>
        e.id == created.value.id && UpdateFrom(e.id, e.attrs) == created.value
  {
    var r := client.create(ClusterFrom(attrs));
    if r.Ok? && r.value.server.serverJoin.retryJoin.Some? && r.value.server.serverJoin.startJoin.Some? {
      WritesReadBack(attrs, schema, r.value);
    }
  }

  method CreateCluster(d: ResourceData, client: Option<Service<NomadCluster>>)
    returns (f: Option<Failure>, sent: TfValues.Call<NomadCluster>)
    modifies d
    ensures Effect(f, sent, d.id, d.attrs) ==
      Creating(old(d.id), old(d.attrs), d.schema, client, Ok(ClusterFrom(old(d.attrs))), (c: NomadCluster) => c.id, Writes)
  {
    if client.None? {
      return Some(ClientNotBuilt), TfValues.NoCall;
    }
    var cluster := BuildCluster("", d.attrs);
    sent := TfValues.CreateCall(cluster);
    var resp := client.value.create(cluster);
    if resp.Err? {
      return Some(CallFailed(resp.error)), sent;
    }
    d.SetId(resp.value.id);
    d.SetAll(Writes(resp.value));
    f := None;
  }

  method ReadCluster(d: ResourceData, client: Option<Service<NomadCluster>>)
    returns (f: Option<Failure>, sent: TfValues.Call<NomadCluster>)
    modifies d
    ensures Effect(f, sent, d.id, d.attrs) == Reading(old(d.id), old(d.attrs), d.schema, client, Writes)
  {
    if client.None? {
      return Some(ClientNotBuilt), TfValues.NoCall;
    }
    sent := TfValues.GetCall(d.id);
    var resp := client.value.get(d.id);
    if resp.Err? {
      if resp.error == NotFoundError {
        d.SetId("");
        return None, sent;
      }
      return Some(CallFailed(resp.error)), sent;
    }
    d.SetAll(Writes(resp.value));
    f := None;
  }

  method UpdateCluster(d: ResourceData, client: Option<Service<NomadCluster>>)
    returns (f: Option<Failure>, sent: TfValues.Call<NomadCluster>)
    modifies d
    ensures Effect(f, sent, d.id, d.attrs) ==
      Updating(old(d.id), old(d.attrs), d.schema, client, Ok(UpdateFrom(old(d.id), old(d.attrs))), Writes)
  {
    if client.None? {
      return Some(ClientNotBuilt), TfValues.NoCall;
    }
    var cluster := BuildCluster(d.id, d.attrs);
    sent := TfValues.UpdateCall(cluster);
    var resp := client.value.update(cluster);
    if resp.Err? {
      return Some(CallFailed(resp.error)), sent;
    }
    d.SetAll(Writes(resp.value));
    f := None;
  }

  method DeleteCluster(d: ResourceData, client: Option<Service<NomadCluster>>)
    returns (f: Option<Failure>, sent: TfValues.Call<NomadCluster>)
    ensures (f, sent) == Deleting(d.id, client)
  {
    if client.None? {
      return Some(ClientNotBuilt), TfValues.NoCall;
    }
    sent := TfValues.DeleteCall(d.id);
    var err := client.value.delete(d.id);
    f := if err.Some? then Some(CallFailed(err.value)) else None;
  }
}
