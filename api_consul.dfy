// api/consul.go: defaults for a Consul cluster and the decisions the POST and
// PUT handlers take before storing one.
module ApiConsul {
  import opened Common
  import opened Protocol
  import opened Records
  import opened ApiStorer
  import opened ApiHandlers

  /** Every field FillDefaults fills is set (non-empty address, non-zero port). */
  predicate Defaulted(c: ConsulCluster) {
    && c.addresses.dns != "" && c.addresses.http != "" && c.addresses.https != "" && c.addresses.grpc != ""
    && c.ports.dns != 0 && c.ports.http != 0 && c.ports.https != 0 && c.ports.grpc != 0
    && c.ports.serfLan != 0 && c.ports.serfWan != 0 && c.ports.server != 0
  }

  function AddressOr(a: string): string {
    if a == "" then "127.0.0.1" else a
  }

  function PortOr(p: int, default: int): int {
    if p == 0 then default else p
  }

  function DefaultAddresses(a: ConsulAddresses): ConsulAddresses {
    ConsulAddresses(AddressOr(a.dns), AddressOr(a.http), AddressOr(a.https), AddressOr(a.grpc))
  }

  function DefaultPorts(p: ConsulPorts): ConsulPorts {
    ConsulPorts(
      dns := PortOr(p.dns, 8600),
      http := PortOr(p.http, 8500),
      https := PortOr(p.https, 8501),
      grpc := PortOr(p.grpc, 8502),
      serfLan := PortOr(p.serfLan, 8301),
      serfWan := PortOr(p.serfWan, 8302),
      server := PortOr(p.server, 8300),
      sidecarMinPort := p.sidecarMinPort,
      sidecarMaxPort := p.sidecarMaxPort,
      exposeMinPort := p.exposeMinPort,
      exposeMaxPort := p.exposeMaxPort)
  }

  /** The cluster with its defaults filled in. The sidecar and expose port
      pointers are never defaulted. */
  function Defaults(c: ConsulCluster): (r: ConsulCluster)
    ensures Defaulted(r)
    ensures r.id == c.id && r.name == c.name && r.bindAddr == c.bindAddr
    ensures r.addresses == ConsulAddresses(AddressOr(c.addresses.dns), AddressOr(c.addresses.http), AddressOr(c.addresses.https), AddressOr(c.addresses.grpc))
    ensures r.ports.dns == PortOr(c.ports.dns, 8600)
    ensures r.ports.http == PortOr(c.ports.http, 8500)
    ensures r.ports.https == PortOr(c.ports.https, 8501)
    ensures r.ports.grpc == PortOr(c.ports.grpc, 8502)
    ensures r.ports.serfLan == PortOr(c.ports.serfLan, 8301)
    ensures r.ports.serfWan == PortOr(c.ports.serfWan, 8302)
    ensures r.ports.server == PortOr(c.ports.server, 8300)
    ensures r.ports.sidecarMinPort == c.ports.sidecarMinPort && r.ports.sidecarMaxPort == c.ports.sidecarMaxPort
    ensures r.ports.exposeMinPort == c.ports.exposeMinPort && r.ports.exposeMaxPort == c.ports.exposeMaxPort
    ensures Defaulted(c) ==> r == c
  {
    ConsulCluster(c.id, c.name, c.bindAddr, DefaultAddresses(c.addresses), DefaultPorts(c.ports))
  }

  /** Applying the defaults twice is applying them once. */
  lemma DefaultsIdempotent(c: ConsulCluster)
    ensures Defaults(Defaults(c)) == Defaults(c)
  {
    assert Defaulted(Defaults(c));
  }

  /** The address defaults, one field at a time. */
  method FillAddresses(a: ConsulAddresses) returns (r: ConsulAddresses)
    ensures r == DefaultAddresses(a)
  {
    r := a;
    if r.dns == "" {
      r := r.(dns := "127.0.0.1");
    }
    if r.http == "" {
      r := r.(http := "127.0.0.1");
    }
    if r.https == "" {
      r := r.(https := "127.0.0.1");
    }
    if r.grpc == "" {
      r := r.(grpc := "127.0.0.1");
    }
  }

  /** The port defaults, one field at a time. */
  method FillPorts(p: ConsulPorts) returns (r: ConsulPorts)
    ensures r == DefaultPorts(p)
  {
    var dns, http, https, grpc := p.dns, p.http, p.https, p.grpc;
    var serfLan, serfWan, server := p.serfLan, p.serfWan, p.server;
    if dns == 0 {
      dns := 8600;
    }
    if http == 0 {
      http := 8500;
    }
    if https == 0 {
      https := 8501;
    }
    if grpc == 0 {
      grpc := 8502;
    }
    if serfLan == 0 {
      serfLan := 8301;
    }
    if serfWan == 0 {
      serfWan := 8302;
    }
    if server == 0 {
      server := 8300;
    }
    r := p.(dns := dns, http := http, https := https, grpc := grpc,
            serfLan := serfLan, serfWan := serfWan, server := server);
  }

  /** FillDefaults: addresses first, then ports. */
  method FillDefaults(c: ConsulCluster) returns (r: ConsulCluster)
    ensures r == Defaults(c)
  {
    var addresses := FillAddresses(c.addresses);
    var ports := FillPorts(c.ports);
    r := c.(addresses := addresses, ports := ports);
  }

  /** The POST checks, in order: the body decodes, an empty ID is replaced by
      a fresh UUID, the name is present. */
  function PostDecision(body: Option<ConsulCluster>, uuid: Option<string>): (d: Decision<ConsulCluster>)
    ensures body.None? ==> d == Reject(StatusBadRequest, [InvalidFormatError])
    ensures body.Some? && body.value.id == "" && uuid.None? ==> d == Reject(StatusServerError, [ServerError])
    ensures d.Proceed? <==> body.Some? && (body.value.id != "" || uuid.Some?) && body.value.name != ""
    ensures d.Reject? && body.Some? && (body.value.id != "" || uuid.Some?) ==> d == Reject(StatusBadRequest, [FieldError(Missing, "/name")])
    ensures d.Proceed? ==> d.id == (if body.value.id != "" then body.value.id else uuid.value)
    ensures d.Proceed? ==> d.record == body.value.(id := d.id)
  {
    if body.None? then Reject(StatusBadRequest, [InvalidFormatError])
    else
      var c := body.value;
      if c.id == "" && uuid.None? then Reject(StatusServerError, [ServerError])
      else
        var id := if c.id == "" then uuid.value else c.id;
        if c.name == "" then Reject(StatusBadRequest, [FieldError(Missing, "/name")])
        else Proceed(id, c.(id := id))
  }

  /** The PUT checks, in order: the body decodes, a non-empty body ID equals
      the path ID, the name is present. */
  function PutDecision(pathId: string, body: Option<ConsulCluster>): (d: Decision<ConsulCluster>)
    ensures body.None? ==> d == Reject(StatusBadRequest, [InvalidFormatError])
    ensures body.Some? && body.value.id != "" && body.value.id != pathId ==> d == Reject(StatusBadRequest, [IdConflict])
    ensures d.Proceed? <==> body.Some? && (body.value.id == "" || body.value.id == pathId) && body.value.name != ""
    ensures d.Reject? && body.Some? && (body.value.id == "" || body.value.id == pathId) ==> d == Reject(StatusBadRequest, [FieldError(Missing, "/name")])
    ensures d.Proceed? ==> d.id == body.value.id && d.record == body.value
  {
    if body.None? then Reject(StatusBadRequest, [InvalidFormatError])
    else
      var c := body.value;
      if c.id != "" && c.id != pathId then Reject(StatusBadRequest, [IdConflict])
      else if c.name == "" then Reject(StatusBadRequest, [FieldError(Missing, "/name")])
      else Proceed(c.id, c)
  }

  /** handlePostConsulCluster. */
  method Post(t: Table<ConsulCluster>, body: Option<ConsulCluster>, uuid: Option<string>) returns (resp: Response<ConsulCluster>)
    modifies t
    ensures PostDecision(body, uuid).Reject? ==> resp == Rejection(PostDecision(body, uuid)) && t.rows == old(t.rows)
    ensures var d := PostDecision(body, uuid);
      d.Proceed? ==> CreateOutcome(old(t.rows), d.id, Defaults(d.record), resp, t.rows)
  {
    var d := PostDecision(body, uuid);
    if d.Reject? {
      return Rejection(d);
    }
    var rec := FillDefaults(d.record);
    resp := StoreCreate(t, d.id, rec);
  }

  /** handlePutConsulCluster. */
  method Put(t: Table<ConsulCluster>, pathId: string, body: Option<ConsulCluster>) returns (resp: Response<ConsulCluster>)
    modifies t
    ensures PutDecision(pathId, body).Reject? ==> resp == Rejection(PutDecision(pathId, body)) && t.rows == old(t.rows)
    ensures var d := PutDecision(pathId, body);
      d.Proceed? ==> UpdateOutcome(old(t.rows), d.id, Defaults(d.record), resp, t.rows)
  {
    var d := PutDecision(pathId, body);
    if d.Reject? {
      return Rejection(d);
    }
    var rec := FillDefaults(d.record);
    resp := StoreUpdate(t, d.id, rec);
  }
}
