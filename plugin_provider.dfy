// provider/internal/provider/plugin_provider.go: the low-level provider
// server. It advertises its schema, keeps the credentials ConfigureProvider
// read, and routes each resource RPC by type name. Only the Vault cluster
// is routed; data sources are never served.
module PluginProvider {
  import opened Common
  import opened Records
  import opened TfValues
  import PluginVault

  /** The one resource type the server routes. */
  const VaultClusterType := "dadcorp_vault_cluster"

  /** The credentials a client is built from (clientFactory). */
  datatype ClientFactory = ClientFactory(username: string, password: string)

  /** The advertised schema: the provider's configuration attributes, and
      the top-level attributes of each resource and data source schema by
      type name. */
  datatype ProviderSchema = ProviderSchema(
    providerAttributes: set<AttrName>,
    resourceSchemas: map<string, set<AttrName>>,
    dataSourceSchemas: map<string, set<AttrName>>)

  /** GetProviderSchema: optional username and password, the Vault cluster
      as the only resource, and no data source. */
  function GetProviderSchema(): (s: ProviderSchema)
    ensures s.providerAttributes == {Username, Password}
    ensures s.resourceSchemas.Keys == {VaultClusterType}
    ensures s.resourceSchemas[VaultClusterType] == PluginVault.ClusterKeys
    ensures |s.dataSourceSchemas| == 0
  {
    ProviderSchema({Username, Password}, map[VaultClusterType := PluginVault.ClusterKeys], map[])
  }

  /** The credentials ConfigureProvider settles on, given the values of
      DADCORP_USERNAME and DADCORP_PASSWORD: a configured value is read
      only when known and non-null, and a non-empty environment value
      overrides it. */
  function ConfiguredFactory(config: Val, envUsername: string, envPassword: string): Result<ClientFactory, Diag> {
    match AsMap(config)
    case None => Err(Diag(UnexpectedProviderConfig, []))
    case Some(values) =>
      var u, p := Get(values, Username), Get(values, Password);
      if KnownNonNull(u) && AsString(u).None? then Err(Diag(UnexpectedProviderConfig, [Attr(Username)]))
      else if KnownNonNull(p) && AsString(p).None? then Err(Diag(UnexpectedProviderConfig, [Attr(Password)]))
      else
        var username := if KnownNonNull(u) then AsString(u).value else "";
        var password := if KnownNonNull(p) then AsString(p).value else "";
        Ok(ClientFactory(
          if envUsername != "" then envUsername else username,
          if envPassword != "" then envPassword else password))
  }

  /** The precedence of the credentials: the environment when set, else a
      known, non-null configured string, else "". Only a configuration
      that is not an object, or a known, non-null credential that is not a
      string, is refused. */
  lemma ConfiguredFactoryRules(config: Val, envUsername: string, envPassword: string)
    ensures var r := ConfiguredFactory(config, envUsername, envPassword);
      && (r.Err? <==>
            || AsMap(config).None?
            || (KnownNonNull(Get(AsMap(config).value, Username)) && AsString(Get(AsMap(config).value, Username)).None?)
            || (KnownNonNull(Get(AsMap(config).value, Password)) && AsString(Get(AsMap(config).value, Password)).None?))
      && (r.Err? ==> r.error.summary == UnexpectedProviderConfig)
      && (r.Ok? && envUsername != "" ==> r.value.username == envUsername)
      && (r.Ok? && envPassword != "" ==> r.value.password == envPassword)
      && (r.Ok? && envUsername == "" ==>
            var u := Get(AsMap(config).value, Username);
            r.value.username == (if u.Str? then u.s else ""))
      && (r.Ok? && envPassword == "" ==>
            var p := Get(AsMap(config).value, Password);
            r.value.password == (if p.Str? then p.s else ""))
  {
  }

  /** The provider server. `newClient` stands for dadcorp.NewClient, which
      builds a client from the factory's credentials (None: it failed). */
  class Provider {
    var factory: ClientFactory

    constructor()
      ensures factory == ClientFactory("", "")
    {
      factory := ClientFactory("", "");
    }

    /** ConfigureProvider: the credentials are collected one at a time and
        stored only when every step succeeded. */
    method ConfigureProvider(config: Val, envUsername: string, envPassword: string) returns (d: Option<Diag>)
      modifies this
      ensures match ConfiguredFactory(config, envUsername, envPassword)
        case Ok(f) => d.None? && factory == f
        case Err(e) => d == Some(e) && factory == old(factory)
    {
      var values := AsMap(config);
      if values.None? {
        return Some(Diag(UnexpectedProviderConfig, []));
      }
      var client := ClientFactory("", "");
      var u := Get(values.value, Username);
      if KnownNonNull(u) {
        var s := AsString(u);
        if s.None? {
          return Some(Diag(UnexpectedProviderConfig, [Attr(Username)]));
        }
        client := client.(username := s.value);
      }
      var p := Get(values.value, Password);
      if KnownNonNull(p) {
        var s := AsString(p);
        if s.None? {
          return Some(Diag(UnexpectedProviderConfig, [Attr(Password)]));
        }
        client := client.(password := s.value);
      }
      if envUsername != "" {
        client := client.(username := envUsername);
      }
      if envPassword != "" {
        client := client.(password := envPassword);
      }
      factory := client;
      d := None;
    }

    /** The clients the Vault engine gets: those built from this provider's
        credentials. */
    function Clients(newClient: ClientFactory -> Option<PluginVault.VaultRemote>): Option<PluginVault.VaultRemote>
      reads this
    {
      newClient(factory)
    }

    method ValidateResourceTypeConfig(typeName: string, config: Val, newClient: ClientFactory -> Option<PluginVault.VaultRemote>)
      returns (d: Option<Diag>)
      ensures typeName != VaultClusterType ==> d == Some(Diag(UnknownResource, []))
      ensures typeName == VaultClusterType ==> PluginVault.Validated(config, Clients(newClient), d)
    {
      if typeName == VaultClusterType {
        d := PluginVault.ValidateResourceTypeConfig(config, Clients(newClient));
      } else {
        d := Some(Diag(UnknownResource, []));
      }
    }

    function UpgradeResourceState(typeName: string, version: int, raw: Val): (r: Reply)
      ensures typeName != VaultClusterType ==> r == Fail(Diag(UnknownResource, []))
      ensures typeName == VaultClusterType ==> r == TfValues.UpgradeResourceState(version, raw)
    {
      if typeName == VaultClusterType then TfValues.UpgradeResourceState(version, raw)
      else Fail(Diag(UnknownResource, []))
    }

    function ReadResource(typeName: string, current: Val, newClient: ClientFactory -> Option<PluginVault.VaultRemote>): (r: Reply)
      reads this
      ensures typeName != VaultClusterType ==> r == Fail(Diag(UnknownResource, []))
      ensures typeName == VaultClusterType ==> r == PluginVault.ReadResource(current, Clients(newClient))
    {
      if typeName == VaultClusterType then PluginVault.ReadResource(current, Clients(newClient))
      else Fail(Diag(UnknownResource, []))
    }

    function PlanResourceChange(typeName: string, proposed: Val): (r: Reply)
      ensures typeName != VaultClusterType ==> r == Fail(Diag(UnknownResource, []))
      ensures typeName == VaultClusterType ==> r == PluginVault.PlanReply(proposed)
    {
      if typeName == VaultClusterType then PluginVault.PlanReply(proposed)
      else Fail(Diag(UnknownResource, []))
    }

    method ApplyResourceChange(typeName: string, planned: Val, prior: Val, newClient: ClientFactory -> Option<PluginVault.VaultRemote>)
      returns (r: Reply, sent: Call<VaultCluster>)
      ensures typeName != VaultClusterType ==> r == Fail(Diag(UnknownResource, [])) && sent == NoCall
      ensures typeName == VaultClusterType ==> PluginVault.Applied(planned, prior, Clients(newClient), r, sent)
    {
      if typeName == VaultClusterType {
        r, sent := PluginVault.ApplyResourceChange(planned, prior, Clients(newClient));
      } else {
        r, sent := Fail(Diag(UnknownResource, [])), NoCall;
      }
    }

    function ImportResourceState(typeName: string, id: string, newClient: ClientFactory -> Option<PluginVault.VaultRemote>): (r: Reply)
      reads this
      ensures typeName != VaultClusterType ==> r == Fail(Diag(UnknownResource, []))
      ensures typeName == VaultClusterType ==> r == PluginVault.ImportResourceState(id, Clients(newClient))
    {
      if typeName == VaultClusterType then PluginVault.ImportResourceState(id, Clients(newClient))
      else Fail(Diag(UnknownResource, []))
    }
  }

  /** The data-source RPCs serve no type name. */
  function ValidateDataSourceConfig(typeName: string): (d: Diag)
    ensures d.summary == UnknownDataSource && d.path == []
  {
    Diag(UnknownDataSource, [])
  }

  function ReadDataSource(typeName: string): (r: Reply)
    ensures r == Fail(Diag(UnknownDataSource, []))
  {
    Fail(Diag(UnknownDataSource, []))
  }

  /** The Vault engine never answers "Unknown resource", so that diagnostic
      tells exactly that a type name was not routed. */
  lemma UnknownResourceOnlyWhenUnrouted(p: Provider, typeName: string, version: int, state: Val, id: string,
                                        newClient: ClientFactory -> Option<PluginVault.VaultRemote>)
    ensures p.UpgradeResourceState(typeName, version, state) == Fail(Diag(UnknownResource, [])) <==> typeName != VaultClusterType
    ensures p.ReadResource(typeName, state, newClient) == Fail(Diag(UnknownResource, [])) <==> typeName != VaultClusterType
    ensures p.PlanResourceChange(typeName, state) == Fail(Diag(UnknownResource, [])) <==> typeName != VaultClusterType
    ensures p.ImportResourceState(typeName, id, newClient) == Fail(Diag(UnknownResource, [])) <==> typeName != VaultClusterType
  {
    PluginVault.PlanReplyFails(state);
  }

  /** The same for the two RPCs the engine implements as methods. */
  lemma RoutedNeverUnknownResource(config: Val, planned: Val, prior: Val, clients: Option<PluginVault.VaultRemote>,
                                   d: Option<Diag>, r: Reply, sent: Call<VaultCluster>)
    requires PluginVault.Validated(config, clients, d)
    requires PluginVault.Applied(planned, prior, clients, r, sent)
    ensures d != Some(Diag(UnknownResource, []))
    ensures r != Fail(Diag(UnknownResource, []))
  {
  }
}
