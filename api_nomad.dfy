// api/nomad.go: defaults for a Nomad cluster and the decisions the POST and
// PUT handlers take before storing one.
module ApiNomad {
  import opened Common
  import opened Protocol
  import opened Records
  import opened ApiStorer
  import opened ApiHandlers

  /** Every field FillDefaults fills is set. */
  predicate Defaulted(c: NomadCluster) {
    && c.ports.http != 0 && c.ports.rpc != 0 && c.ports.serf != 0
    && c.server.serverJoin.retryJoin.Some?
    && c.server.serverJoin.startJoin.Some?
    && c.server.serverJoin.retryInterval != ""
  }

  function PortOr(p: int, default: int): int {
    if p == 0 then default else p
  }

  function ListOrEmpty(l: Option<seq<string>>): Option<seq<string>> {
    if l.None? then Some([]) else l
  }

  /** The cluster with its defaults filled in. The bind address, the
      advertise block and RetryMax are never defaulted. */
  function Defaults(c: NomadCluster): (r: NomadCluster)
    ensures Defaulted(r)
    ensures r.id == c.id && r.name == c.name && r.datacenter == c.datacenter
    ensures r.bindAddr == c.bindAddr && r.advertise == c.advertise
    ensures r.ports == NomadPorts(PortOr(c.ports.http, 4646), PortOr(c.ports.rpc, 4647), PortOr(c.ports.serf, 4648))
    ensures r.server.serverJoin.retryJoin == ListOrEmpty(c.server.serverJoin.retryJoin)
    ensures r.server.serverJoin.startJoin == ListOrEmpty(c.server.serverJoin.startJoin)
    ensures r.server.serverJoin.retryInterval == (if c.server.serverJoin.retryInterval == "" then "30s" else c.server.serverJoin.retryInterval)
    ensures r.server.serverJoin.retryMax == c.server.serverJoin.retryMax
    ensures Defaulted(c) ==> r == c
  {
    var j := c.server.serverJoin;
    NomadCluster(
      id := c.id,
      name := c.name,
      datacenter := c.datacenter,
      bindAddr := c.bindAddr,
      advertise := c.advertise,
      ports := NomadPorts(
        http := PortOr(c.ports.http, 4646),
        rpc := PortOr(c.ports.rpc, 4647),
        serf := PortOr(c.ports.serf, 4648)),
      server := NomadServer(ServerJoin(
        retryJoin := ListOrEmpty(j.retryJoin),
        retryInterval := if j.retryInterval == "" then "30s" else j.retryInterval,
        retryMax := j.retryMax,
        startJoin := ListOrEmpty(j.startJoin))))
  }

  /** Applying the defaults twice is applying them once. */
  lemma DefaultsIdempotent(c: NomadCluster)
    ensures Defaults(Defaults(c)) == Defaults(c)
  {
    assert Defaulted(Defaults(c));
  }

  /** FillDefaults, one field at a time. */
  method FillDefaults(c: NomadCluster) returns (r: NomadCluster)
    ensures r == Defaults(c)
  {
    var http, rpc, serf := c.ports.http, c.ports.rpc, c.ports.serf;
    if http == 0 {
      http := 4646;
    }
    if rpc == 0 {
      rpc := 4647;
    }
    if serf == 0 {
      serf := 4648;
    }
    var join := c.server.serverJoin;
    var retryJoin, startJoin, retryInterval := join.retryJoin, join.startJoin, join.retryInterval;
    if retryJoin.None? {
      retryJoin := Some([]);
    }
    if startJoin.None? {
      startJoin := Some([]);
    }
    if retryInterval == "" {
      retryInterval := "30s";
    }
    r := c.(ports := NomadPorts(http, rpc, serf),
            server := NomadServer(join.(retryJoin := retryJoin, startJoin := startJoin, retryInterval := retryInterval)));
  }

  /** The POST checks, in order: the body decodes, an empty ID is replaced by
      a fresh UUID, the name is present, the datacenter is present. */
  function PostDecision(body: Option<NomadCluster>, uuid: Option<string>): (d: Decision<NomadCluster>)
    ensures body.None? ==> d == Reject(StatusBadRequest, [InvalidFormatError])
    ensures body.Some? && body.value.id == "" && uuid.None? ==> d == Reject(StatusServerError, [ServerError])
    ensures d.Proceed? <==> body.Some? && (body.value.id != "" || uuid.Some?) && body.value.name != "" && body.value.datacenter != ""
    ensures d.Reject? && body.Some? && (body.value.id != "" || uuid.Some?) ==>
      d == Reject(StatusBadRequest, [FieldError(Missing, if body.value.name == "" then "/name" else "/datacenter")])
    ensures d.Proceed? ==> d.id == (if body.value.id != "" then body.value.id else uuid.value)
    ensures d.Proceed? ==> d.record == body.value.(id := d.id)
  {
    if body.None? then Reject(StatusBadRequest, [InvalidFormatError])
    else
      var c := body.value;
      if c.id == "" && uuid.None? then Reject(StatusServerError, [ServerError])
      else
        var id := if c.id == "" then uuid.value else c.id;
        if c.name == "" then Reject(StatusBadRequest, [FieldError(Missing, "/name")])
        else if c.datacenter == "" then Reject(StatusBadRequest, [FieldError(Missing, "/datacenter")])
        else Proceed(id, c.(id := id))
  }

  /** The PUT checks, in order: the body decodes, a non-empty body ID equals
      the path ID, the name is present, the datacenter is present. */
  function PutDecision(pathId: string, body: Option<NomadCluster>): (d: Decision<NomadCluster>)
    ensures body.None? ==> d == Reject(StatusBadRequest, [InvalidFormatError])
    ensures body.Some? && body.value.id != "" && body.value.id != pathId ==> d == Reject(StatusBadRequest, [IdConflict])
    ensures d.Proceed? <==> body.Some? && (body.value.id == "" || body.value.id == pathId) && body.value.name != "" && body.value.datacenter != ""
    ensures d.Reject? && body.Some? && (body.value.id == "" || body.value.id == pathId) ==>
      d == Reject(StatusBadRequest, [FieldError(Missing, if body.value.name == "" then "/name" else "/datacenter")])
    ensures d.Proceed? ==> d.id == body.value.id && d.record == body.value
  {
    if body.None? then Reject(StatusBadRequest, [InvalidFormatError])
    else
      var c := body.value;
      if c.id != "" && c.id != pathId then Reject(StatusBadRequest, [IdConflict])
      else if c.name == "" then Reject(StatusBadRequest, [FieldError(Missing, "/name")])
      else if c.datacenter == "" then Reject(StatusBadRequest, [FieldError(Missing, "/datacenter")])
      else Proceed(c.id, c)
  }

  /** handlePostNomadCluster. */
  method Post(t: Table<NomadCluster>, body: Option<NomadCluster>, uuid: Option<string>) returns (resp: Response<NomadCluster>)
    modifies t
    ensures PostDecision(body, uuid).Reject? ==> resp == Rejection(PostDecision(body, uuid)) && t.rows == old(t.rows)
    ensures var d := PostDecision(body, uuid);
      d.Proceed? ==> CreateOutcome(old(t.rows), d.id, Defaults(d.record), resp, t.rows)
  {
    var d := PostDecision(body, uuid);
    if d.Reject? {
      return Rejection(d);
    }
    var rec := FillDefaults(d.record);
    resp := StoreCreate(t, d.id, rec);
  }

  /** handlePutNomadCluster. */
  method Put(t: Table<NomadCluster>, pathId: string, body: Option<NomadCluster>) returns (resp: Response<NomadCluster>)
    modifies t
    ensures PutDecision(pathId, body).Reject? ==> resp == Rejection(PutDecision(pathId, body)) && t.rows == old(t.rows)
    ensures var d := PutDecision(pathId, body);
      d.Proceed? ==> UpdateOutcome(old(t.rows), d.id, Defaults(d.record), resp, t.rows)
  {
    var d := PutDecision(pathId, body);
    if d.Reject? {
      return Rejection(d);
    }
    var rec := FillDefaults(d.record);
    resp := StoreUpdate(t, d.id, rec);
  }
}
