// provider/internal/provider/plugin_vault.go: the low-level engine of the
// dadcorp_vault_cluster resource. Each RPC takes attribute values and the
// Vault client (an oracle), and answers with a new state or one diagnostic.
module PluginVault {
  import opened Common
  import opened Records
  import opened ClientResponse
  import opened TfValues

  /** The client calls the engine makes. `regions` is the ID list of
      Regions.List; the other fields answer the cluster service's calls.
      A missing client (NewClient failed) is modelled by passing None. */
  datatype VaultRemote = VaultRemote(
    regions: Result<seq<string>, ClientError>,
    get: string -> Result<VaultCluster, ClientError>,
    create: VaultCluster -> Result<VaultCluster, ClientError>,
    update: VaultCluster -> Result<VaultCluster, ClientError>,
    delete: string -> Option<ClientError>)

  /** The attributes of the cluster object and of its tcp_listener block. */
  const ClusterKeys: set<AttrName> := {Id, Name, Region, DefaultLeaseTtl, MaxLeaseTtl, TcpListenerBlock}
  const TcpKeys: set<AttrName> := {Address, ClusterAddress}
  /** The attributes Plan may rewrite. */
  const PlanKeys: set<AttrName> := {Id, DefaultLeaseTtl, MaxLeaseTtl, TcpListenerBlock}

  /** The region loop of ValidateResourceTypeConfig: it scans every listed
      region and records whether one has the configured ID. */
  method FindRegion(ids: seq<string>, region: string) returns (found: bool)
    ensures found <==> region in ids
  {
    found := false;
    for i := 0 to |ids|
      invariant found <==> region in ids[..i]
    {
      if ids[i] == region {
        found := true;
      }
    }
    assert ids[..|ids|] == ids;
  }

  /** What ValidateResourceTypeConfig answers. An unknown region is not
      checked; a known one (null reads as "") must be among the regions the
      server lists. */
  predicate Validated(config: Val, clients: Option<VaultRemote>, d: Option<Diag>) {
    && (AsMap(config).None? ==> d == Some(Diag(UnexpectedConfigFormat, [])))
    && (AsMap(config).Some? && !IsKnown(Get(AsMap(config).value, Region)) ==> d.None?)
    && (AsMap(config).Some? && IsKnown(Get(AsMap(config).value, Region)) && AsString(Get(AsMap(config).value, Region)).None? ==>
          d == Some(Diag(UnexpectedConfigFormat, [Attr(Region)])))
    && (AsMap(config).Some? && AsString(Get(AsMap(config).value, Region)).Some? ==>
          var region := AsString(Get(AsMap(config).value, Region)).value;
          && (clients.None? ==> d == Some(Diag(ErrorCreatingClient, [])))
          && (clients.Some? && clients.value.regions.Err? ==> d == Some(Diag(ErrorRetrievingRegions, [])))
          && (clients.Some? && clients.value.regions.Ok? ==>
                (d.None? <==> region in clients.value.regions.value)
                && (d.Some? ==> d == Some(Diag(UnknownRegion, [Attr(Region)])))))
  }

  /** ValidateResourceTypeConfig. */
  method ValidateResourceTypeConfig(config: Val, clients: Option<VaultRemote>) returns (d: Option<Diag>)
    ensures Validated(config, clients, d)
  {
    var values := AsMap(config);
    if values.None? {
      return Some(Diag(UnexpectedConfigFormat, []));
    }
    var regionVal := Get(values.value, Region);
    if !IsKnown(regionVal) {
      return None;
    }
    var region := AsString(regionVal);
    if region.None? {
      return Some(Diag(UnexpectedConfigFormat, [Attr(Region)]));
    }
    if clients.None? {
      return Some(Diag(ErrorCreatingClient, []));
    }
    var regions := clients.value.regions;
    if regions.Err? {
      return Some(Diag(ErrorRetrievingRegions, []));
    }
    var found := FindRegion(regions.value, region.value);
    if !found {
      return Some(Diag(UnknownRegion, [Attr(Region)]));
    }
    d := None;
  }

  /** The state written for a cluster the server returned (Read, Import). */
  function ClusterState(c: VaultCluster): (v: Val)
    ensures v.Obj? && v.attrs.Keys == ClusterKeys
  {
    Obj(map[
      Id := Str(c.id),
      Name := Str(c.name),
      Region := Str(c.region),
      DefaultLeaseTtl := Str(c.defaultLeaseTtl),
      MaxLeaseTtl := Str(c.maxLeaseTtl),
      TcpListenerBlock := Obj(map[
        Address := Str(c.tcpListener.address),
        ClusterAddress := Str(c.tcpListener.clusterAddress)])])
  }

  /** ReadResource: the `id` of the current state is looked up; a cluster the
      server no longer has removes the resource (null state), any other
      error is reported. */
  function ReadResource(current: Val, clients: Option<VaultRemote>): (r: Reply)
    ensures AsMap(current).None? ==> r == Fail(Diag(UnexpectedStateFormat, []))
    ensures r.Done? <==> (
      && AsMap(current).Some? && clients.Some?
      && var id := AsString(Get(AsMap(current).value, Id));
         id.Some? && (clients.value.get(id.value).Ok? || clients.value.get(id.value) == Err(NotFoundError)))
  {
    match AsMap(current)
    case None => Fail(Diag(UnexpectedStateFormat, []))
    case Some(state) =>
      match AsString(Get(state, Id))
      case None => Fail(Diag(UnexpectedStateFormat, [Attr(Id)]))
      case Some(id) =>
        if clients.None? then Fail(Diag(ErrorCreatingClient, []))
        else
          match clients.value.get(id)
          case Err(NotFoundError) => Done(Null)
          case Err(_) => Fail(Diag(ErrorRetrieving, []))
          case Ok(c) => Done(ClusterState(c))
  }

  /** ImportResourceState: every Get error, not-found included, is reported. */
  function ImportResourceState(id: string, clients: Option<VaultRemote>): (r: Reply)
    ensures r.Done? <==> clients.Some? && clients.value.get(id).Ok?
    ensures r.Done? ==> r.state == ClusterState(clients.value.get(id).value)
  {
    if clients.None? then Fail(Diag(ErrorCreatingClient, []))
    else
      match clients.value.get(id)
      case Err(_) => Fail(Diag(ErrorRetrieving, []))
      case Ok(c) => Done(ClusterState(c))
  }

  /** Read and Import agree on a cluster the server has; on one it does not,
      Read drops the resource while Import fails. */
  lemma ReadAgreesWithImport(id: string, current: Val, remote: VaultRemote)
    requires current.Obj? && Get(current.attrs, Id) == Str(id)
    ensures remote.get(id).Ok? ==> ReadResource(current, Some(remote)) == ImportResourceState(id, Some(remote))
    ensures remote.get(id) == Err(NotFoundError) ==>
      ReadResource(current, Some(remote)) == Done(Null) && ImportResourceState(id, Some(remote)).Fail?
  {
  }

  /** The shape Plan leaves behind: an object whose id and TTLs are not null,
      and whose tcp_listener, when known and non-null, is an object holding
      exactly a non-null address and cluster_address. */
  predicate Planned(v: Val) {
    && v.Obj?
    && !Get(v.attrs, Id).Null?
    && !Get(v.attrs, DefaultLeaseTtl).Null?
    && !Get(v.attrs, MaxLeaseTtl).Null?
    && var t := Get(v.attrs, TcpListenerBlock);
       KnownNonNull(t) ==>
         t.Obj? && t.attrs.Keys == TcpKeys && !t.attrs[Address].Null? && !t.attrs[ClusterAddress].Null?
  }

  /** The state Read and Import write is wholly known and already planned,
      so a refresh followed by a plan proposes no change. */
  lemma ClusterStatePlanned(c: VaultCluster)
    ensures WhollyKnown(ClusterState(c))
    ensures Planned(ClusterState(c))
  {
    var v := ClusterState(c);
    var t := v.attrs[TcpListenerBlock];
    forall k | k in t.attrs
      ensures WhollyKnown(t.attrs[k])
    {
      assert k in TcpKeys;
    }
    forall k | k in v.attrs
      ensures WhollyKnown(v.attrs[k])
    {
      assert k in ClusterKeys;
    }
  }

  /** The computed-attribute rule of Plan: a null (or missing) id or TTL
      becomes Unknown. */
  function PlannedComputed(m: map<AttrName, Val>): map<AttrName, Val> {
    m[Id := NullToUnknown(Get(m, Id))]
     [DefaultLeaseTtl := NullToUnknown(Get(m, DefaultLeaseTtl))]
     [MaxLeaseTtl := NullToUnknown(Get(m, MaxLeaseTtl))]
  }

  /** The tcp_listener rule of Plan: the block is rebuilt from its two
      attributes, a null one becoming Unknown. */
  function PlannedListener(tcp: map<AttrName, Val>): map<AttrName, Val> {
    map[Address := NullToUnknown(Get(tcp, Address)), ClusterAddress := NullToUnknown(Get(tcp, ClusterAddress))]
  }

  /** What PlanResourceChange answers for a proposed state. */
  function PlanReply(proposed: Val): Reply {
    match AsMap(proposed)
    case None => Fail(Diag(UnexpectedStateFormat, []))
    case Some(m) =>
      var s := PlannedComputed(m);
      var t := Get(m, TcpListenerBlock);
      if !KnownNonNull(t) then Done(Obj(s))
      else
        match AsMap(t)
        case None => Fail(Diag(UnexpectedStateFormat, [Attr(TcpListenerBlock)]))
        case Some(tcp) => Done(Obj(s[TcpListenerBlock := Obj(PlannedListener(tcp))]))
  }

  /** Plan fails only on a proposal that is not an object or whose known,
      non-null tcp_listener is not one. */
  lemma PlanReplyFails(proposed: Val)
    ensures var r := PlanReply(proposed);
      && (r.Fail? <==> (AsMap(proposed).None? ||
            (KnownNonNull(Get(AsMap(proposed).value, TcpListenerBlock)) && AsMap(Get(AsMap(proposed).value, TcpListenerBlock)).None?)))
      && (AsMap(proposed).None? ==> r == Fail(Diag(UnexpectedStateFormat, [])))
      && (AsMap(proposed).Some? && r.Fail? ==> r == Fail(Diag(UnexpectedStateFormat, [Attr(TcpListenerBlock)])))
  {
  }

  /** Attribute by attribute: id and the TTLs null-to-Unknown, tcp_listener
      rebuilt when known and non-null, everything else as proposed. */
  lemma PlanReplyRules(proposed: Val)
    requires PlanReply(proposed).Done?
    ensures
      var m := AsMap(proposed).value;
      var p := PlanReply(proposed).state.attrs;
      var t := Get(m, TcpListenerBlock);
      && p.Keys == m.Keys + {Id, DefaultLeaseTtl, MaxLeaseTtl}
      && (forall k :: k in m && k !in PlanKeys ==> p[k] == m[k])
      && p[Id] == NullToUnknown(Get(m, Id))
      && p[DefaultLeaseTtl] == NullToUnknown(Get(m, DefaultLeaseTtl))
      && p[MaxLeaseTtl] == NullToUnknown(Get(m, MaxLeaseTtl))
      && (!KnownNonNull(t) ==> Get(p, TcpListenerBlock) == t)
      && (KnownNonNull(t) ==>
            var nt := p[TcpListenerBlock];
            && nt.Obj? && nt.attrs.Keys == TcpKeys
            && nt.attrs[Address] == NullToUnknown(Get(t.attrs, Address))
            && nt.attrs[ClusterAddress] == NullToUnknown(Get(t.attrs, ClusterAddress)))
  {
  }

  /** Whatever Plan answers has the planned shape. */
  lemma PlanReplyPlanned(proposed: Val)
    requires PlanReply(proposed).Done?
    ensures Planned(PlanReply(proposed).state)
  {
  }

  /** Planning a plan changes nothing. */
  lemma PlanReplyIdempotent(proposed: Val)
    requires Planned(proposed)
    ensures PlanReply(proposed) == Done(proposed)
  {
    var m := proposed.attrs;
    var t := Get(m, TcpListenerBlock);
    if KnownNonNull(t) {
      assert PlannedListener(t.attrs) == t.attrs;
    }
    assert PlannedComputed(m) == m;
  }

  /** The computed-attribute step of PlanResourceChange, one attribute at a
      time. */
  method PlanComputed(m: map<AttrName, Val>) returns (s: map<AttrName, Val>)
    ensures s == PlannedComputed(m)
  {
    s := m;
    if Get(s, Id).Null? {
      s := s[Id := Unknown];
    }
    if Get(s, DefaultLeaseTtl).Null? {
      s := s[DefaultLeaseTtl := Unknown];
    }
    if Get(s, MaxLeaseTtl).Null? {
      s := s[MaxLeaseTtl := Unknown];
    }
  }

  /** The tcp_listener step of PlanResourceChange. */
  method PlanTcpListener(tcp: map<AttrName, Val>) returns (nt: map<AttrName, Val>)
    ensures nt == PlannedListener(tcp)
  {
    nt := map[Address := Unknown, ClusterAddress := Unknown];
    if !Get(tcp, Address).Null? {
      nt := nt[Address := tcp[Address]];
    }
    if !Get(tcp, ClusterAddress).Null? {
      nt := nt[ClusterAddress := tcp[ClusterAddress]];
    }
  }

  /** PlanResourceChange: null id and TTLs become Unknown; a known, non-null
      tcp_listener is rebuilt from its two attributes, each null one becoming
      Unknown. Every other attribute is proposed unchanged (PlanReplyFails,
      PlanReplyRules, PlanReplyPlanned, PlanReplyIdempotent). */
  method PlanResourceChange(proposed: Val) returns (r: Reply)
    ensures r == PlanReply(proposed)
  {
    var values := AsMap(proposed);
    if values.None? {
      return Fail(Diag(UnexpectedStateFormat, []));
    }
    var newState := PlanComputed(values.value);
    var t := Get(newState, TcpListenerBlock);
    if KnownNonNull(t) {
      var tcp := AsMap(t);
      if tcp.None? {
        return Fail(Diag(UnexpectedStateFormat, [Attr(TcpListenerBlock)]));
      }
      var newTcp := PlanTcpListener(tcp.value);
      newState := newState[TcpListenerBlock := Obj(newTcp)];
    }
    r := Done(Obj(newState));
  }

  /** The cluster Apply sends: name and region are always converted, each TTL
      and listener address only when known and non-null (otherwise it is sent
      empty, for the server to default). The ID is never taken from the plan.
      A failed conversion names the first offending attribute. */
  function RequestFrom(pm: map<AttrName, Val>): (r: Result<VaultCluster, Diag>)
    ensures r.Err? ==> r.error.summary == UnexpectedPlannedStateFormat
    ensures AsString(Get(pm, Name)).None? ==> r == Err(Diag(UnexpectedPlannedStateFormat, [Attr(Name)]))
    ensures AsString(Get(pm, Name)).Some? && AsString(Get(pm, Region)).None? ==>
      r == Err(Diag(UnexpectedPlannedStateFormat, [Attr(Region)]))
    ensures r.Ok? ==> r.value.id == ""
    ensures r.Ok? ==> AsString(Get(pm, Name)) == Some(r.value.name) && AsString(Get(pm, Region)) == Some(r.value.region)
    ensures r.Ok? ==> StringOrZero(Get(pm, DefaultLeaseTtl)) == Some(r.value.defaultLeaseTtl)
    ensures r.Ok? ==> StringOrZero(Get(pm, MaxLeaseTtl)) == Some(r.value.maxLeaseTtl)
    ensures r.Ok? ==>
      var tcp := AsMap(Get(pm, TcpListenerBlock));
      && tcp.Some?
      && StringOrZero(Get(tcp.value, Address)) == Some(r.value.tcpListener.address)
      && StringOrZero(Get(tcp.value, ClusterAddress)) == Some(r.value.tcpListener.clusterAddress)
  {
    var name := AsString(Get(pm, Name));
    var region := AsString(Get(pm, Region));
    var ttl := StringOrZero(Get(pm, DefaultLeaseTtl));
    var maxTtl := StringOrZero(Get(pm, MaxLeaseTtl));
    var tcp := AsMap(Get(pm, TcpListenerBlock));
    if name.None? then Err(Diag(UnexpectedPlannedStateFormat, [Attr(Name)]))
    else if region.None? then Err(Diag(UnexpectedPlannedStateFormat, [Attr(Region)]))
    else if ttl.None? then Err(Diag(UnexpectedPlannedStateFormat, [Attr(DefaultLeaseTtl)]))
    else if maxTtl.None? then Err(Diag(UnexpectedPlannedStateFormat, [Attr(MaxLeaseTtl)]))
    else if tcp.None? then Err(Diag(UnexpectedPlannedStateFormat, [Attr(TcpListenerBlock)]))
    else
      var address := StringOrZero(Get(tcp.value, Address));
      var clusterAddress := StringOrZero(Get(tcp.value, ClusterAddress));
      if address.None? then Err(Diag(UnexpectedPlannedStateFormat, [Attr(TcpListenerBlock), Attr(Address)]))
      else if clusterAddress.None? then Err(Diag(UnexpectedPlannedStateFormat, [Attr(TcpListenerBlock), Attr(ClusterAddress)]))
      else Ok(VaultCluster("", name.value, region.value, ttl.value, maxTtl.value, TcpListener(address.value, clusterAddress.value)))
  }

  /** Converting a written state back into a request recovers the cluster,
      all but its ID. */
  lemma RequestFromClusterState(c: VaultCluster)
    ensures RequestFrom(ClusterState(c).attrs) == Ok(c.(id := ""))
  {
  }

  /** The planned state's tcp_listener attributes, as Apply reads them. */
  function PlannedTcp(pm: map<AttrName, Val>): map<AttrName, Val> {
    var tcp := AsMap(Get(pm, TcpListenerBlock));
    if tcp.Some? then tcp.value else map[]
  }

  /** The state Apply returns after a create or update answered with `c`:
      the ID is the server's; name and region are the plan's; each TTL and
      listener address is the plan's when known and non-null, otherwise the
      server's. */
  function Merged(pm: map<AttrName, Val>, c: VaultCluster): (f: Val)
    ensures f.Obj? && f.attrs.Keys == ClusterKeys
    ensures f.attrs[Id] == Str(c.id)
    ensures f.attrs[Name] == Get(pm, Name) && f.attrs[Region] == Get(pm, Region)
    ensures forall k :: k in {DefaultLeaseTtl, MaxLeaseTtl} && KnownNonNull(Get(pm, k)) ==> f.attrs[k] == pm[k]
    ensures !KnownNonNull(Get(pm, DefaultLeaseTtl)) ==> f.attrs[DefaultLeaseTtl] == Str(c.defaultLeaseTtl)
    ensures !KnownNonNull(Get(pm, MaxLeaseTtl)) ==> f.attrs[MaxLeaseTtl] == Str(c.maxLeaseTtl)
    ensures
      var t := PlannedTcp(pm);
      var ft := f.attrs[TcpListenerBlock];
      && ft.Obj? && ft.attrs.Keys == TcpKeys
      && (forall k :: k in TcpKeys && KnownNonNull(Get(t, k)) ==> ft.attrs[k] == t[k])
      && (!KnownNonNull(Get(t, Address)) ==> ft.attrs[Address] == Str(c.tcpListener.address))
      && (!KnownNonNull(Get(t, ClusterAddress)) ==> ft.attrs[ClusterAddress] == Str(c.tcpListener.clusterAddress))
  {
    var t := PlannedTcp(pm);
    Obj(map[
      Id := Str(c.id),
      Name := Get(pm, Name),
      Region := Get(pm, Region),
      DefaultLeaseTtl := PlanOr(Get(pm, DefaultLeaseTtl), Str(c.defaultLeaseTtl)),
      MaxLeaseTtl := PlanOr(Get(pm, MaxLeaseTtl), Str(c.maxLeaseTtl)),
      TcpListenerBlock := Obj(map[
        Address := PlanOr(Get(t, Address), Str(c.tcpListener.address)),
        ClusterAddress := PlanOr(Get(t, ClusterAddress), Str(c.tcpListener.clusterAddress))])])
  }

  /** A plan Apply could convert merges into a state with no Unknown left. */
  lemma MergedWhollyKnown(pm: map<AttrName, Val>, c: VaultCluster)
    requires RequestFrom(pm).Ok?
    ensures WhollyKnown(Merged(pm, c))
  {
    var f := Merged(pm, c);
    var ft := f.attrs[TcpListenerBlock];
    assert WhollyKnown(ft) by {
      forall k | k in ft.attrs
        ensures WhollyKnown(ft.attrs[k])
      {
        assert k == Address || k == ClusterAddress;
      }
    }
    forall k | k in f.attrs
      ensures WhollyKnown(f.attrs[k])
    {
      assert k in ClusterKeys;
    }
  }

  /** Apply's request, built field by field. */
  method BuildRequest(pm: map<AttrName, Val>) returns (r: Result<VaultCluster, Diag>)
    ensures r == RequestFrom(pm)
  {
    var name := AsString(Get(pm, Name));
    if name.None? {
      return Err(Diag(UnexpectedPlannedStateFormat, [Attr(Name)]));
    }
    var region := AsString(Get(pm, Region));
    if region.None? {
      return Err(Diag(UnexpectedPlannedStateFormat, [Attr(Region)]));
    }
    var cluster := VaultCluster("", name.value, region.value, "", "", TcpListener("", ""));
    var ttl := Get(pm, DefaultLeaseTtl);
    if KnownNonNull(ttl) {
      var s := AsString(ttl);
      if s.None? {
        return Err(Diag(UnexpectedPlannedStateFormat, [Attr(DefaultLeaseTtl)]));
      }
      cluster := cluster.(defaultLeaseTtl := s.value);
    }
    var maxTtl := Get(pm, MaxLeaseTtl);
    if KnownNonNull(maxTtl) {
      var s := AsString(maxTtl);
      if s.None? {
        return Err(Diag(UnexpectedPlannedStateFormat, [Attr(MaxLeaseTtl)]));
      }
      cluster := cluster.(maxLeaseTtl := s.value);
    }
    var tcp := AsMap(Get(pm, TcpListenerBlock));
    if tcp.None? {
      return Err(Diag(UnexpectedPlannedStateFormat, [Attr(TcpListenerBlock)]));
    }
    var address := Get(tcp.value, Address);
    if KnownNonNull(address) {
      var s := AsString(address);
      if s.None? {
        return Err(Diag(UnexpectedPlannedStateFormat, [Attr(TcpListenerBlock), Attr(Address)]));
      }
      cluster := cluster.(tcpListener := cluster.tcpListener.(address := s.value));
    }
    var clusterAddress := Get(tcp.value, ClusterAddress);
    if KnownNonNull(clusterAddress) {
      var s := AsString(clusterAddress);
      if s.None? {
        return Err(Diag(UnexpectedPlannedStateFormat, [Attr(TcpListenerBlock), Attr(ClusterAddress)]));
      }
      cluster := cluster.(tcpListener := cluster.tcpListener.(clusterAddress := s.value));
    }
    r := Ok(cluster);
  }

  /** Apply's final state, built key by key. */
  method MergeBack(pm: map<AttrName, Val>, c: VaultCluster) returns (f: Val)
    ensures f == Merged(pm, c)
  {
    var finalState := map[Id := Str(c.id), Name := Get(pm, Name), Region := Get(pm, Region)];
    var ttl := Get(pm, DefaultLeaseTtl);
    if KnownNonNull(ttl) {
      finalState := finalState[DefaultLeaseTtl := ttl];
    } else {
      finalState := finalState[DefaultLeaseTtl := Str(c.defaultLeaseTtl)];
    }
    var maxTtl := Get(pm, MaxLeaseTtl);
    if KnownNonNull(maxTtl) {
      finalState := finalState[MaxLeaseTtl := maxTtl];
    } else {
      finalState := finalState[MaxLeaseTtl := Str(c.maxLeaseTtl)];
    }
    var tcp := PlannedTcp(pm);
    var finalTcp: map<AttrName, Val> := map[];
    if KnownNonNull(Get(tcp, Address)) {
      finalTcp := finalTcp[Address := tcp[Address]];
    } else {
      finalTcp := finalTcp[Address := Str(c.tcpListener.address)];
    }
    if KnownNonNull(Get(tcp, ClusterAddress)) {
      finalTcp := finalTcp[ClusterAddress := tcp[ClusterAddress]];
    } else {
      finalTcp := finalTcp[ClusterAddress := Str(c.tcpListener.clusterAddress)];
    }
    finalState := finalState[TcpListenerBlock := Obj(finalTcp)];
    f := Obj(finalState);
  }

  /** The reply to a create or update: an error, or the merged state. */
  function Finish(pm: map<AttrName, Val>, answer: Result<VaultCluster, ClientError>, failure: Summary): Reply {
    if answer.Err? then Fail(Diag(failure, [])) else Done(Merged(pm, answer.value))
  }

  /** What ApplyResourceChange answers and which remote call it makes. A
      null plan deletes the cluster named by the prior state's `id` (every
      delete error, not-found included, is reported); a non-null plan
      updates the prior state's cluster, or creates one when there is no
      prior state, and merges the server's answer back. */
  predicate Applied(planned: Val, prior: Val, clients: Option<VaultRemote>, r: Reply, sent: Call<VaultCluster>) {
    && (clients.None? ==> r == Fail(Diag(ErrorCreatingClient, [])) && sent == NoCall)
    && (clients.Some? && planned.Null? ==>
        match PriorId(prior)
        case Err(e) => r == Fail(e) && sent == NoCall
        case Ok(id) =>
          && sent == DeleteCall(id)
          && (r == Done(Null) <==> clients.value.delete(id).None?)
          && (r != Done(Null) ==> r == Fail(Diag(ErrorDeleting, []))))
    && (clients.Some? && !planned.Null? && AsMap(planned).None? ==>
        r == Fail(Diag(UnexpectedPlannedStateFormat, [])) && sent == NoCall)
    && (clients.Some? && !planned.Null? && AsMap(planned).Some? ==>
        var pm := AsMap(planned).value;
        match RequestFrom(pm)
        case Err(e) => r == Fail(e) && sent == NoCall
        case Ok(req) =>
          if prior.Null? then
            sent == CreateCall(req) && r == Finish(pm, clients.value.create(req), ErrorCreating)
          else
            match PriorId(prior)
            case Err(e) => r == Fail(e) && sent == NoCall
            case Ok(id) =>
              sent == UpdateCall(req.(id := id)) && r == Finish(pm, clients.value.update(req.(id := id)), ErrorUpdating))
    && (r.Done? && !planned.Null? ==> WhollyKnown(r.state))
  }

  /** ApplyResourceChange. */
  method ApplyResourceChange(planned: Val, prior: Val, clients: Option<VaultRemote>) returns (r: Reply, sent: Call<VaultCluster>)
    ensures Applied(planned, prior, clients, r, sent)
  {
    if clients.None? {
      return Fail(Diag(ErrorCreatingClient, [])), NoCall;
    }
    var remote := clients.value;
    sent := NoCall;
    if planned.Null? {
      var id := PriorId(prior);
      if id.Err? {
        return Fail(id.error), NoCall;
      }
      sent := DeleteCall(id.value);
      var err := remote.delete(id.value);
      if err.Some? {
        return Fail(Diag(ErrorDeleting, [])), sent;
      }
      return Done(Null), sent;
    }
    var plannedState := AsMap(planned);
    if plannedState.None? {
      return Fail(Diag(UnexpectedPlannedStateFormat, [])), NoCall;
    }
    var pm := plannedState.value;
    var req := BuildRequest(pm);
    if req.Err? {
      return Fail(req.error), NoCall;
    }
    var cluster := req.value;
    var answer;
    if !prior.Null? {
      var id := PriorId(prior);
      if id.Err? {
        return Fail(id.error), NoCall;
      }
      cluster := cluster.(id := id.value);
      sent := UpdateCall(cluster);
      answer := remote.update(cluster);
      if answer.Err? {
        return Fail(Diag(ErrorUpdating, [])), sent;
      }
    } else {
      sent := CreateCall(cluster);
      answer := remote.create(cluster);
      if answer.Err? {
        return Fail(Diag(ErrorCreating, [])), sent;
      }
    }
    var finalState := MergeBack(pm, answer.value);
    MergedWhollyKnown(pm, answer.value);
    r := Done(finalState);
  }
}
