// The records exchanged between the dadcorp server (api/) and its client
// (client/). Both sides declare structurally identical Go structs with the
// same JSON names, so one datatype per record serves both. A Go pointer or
// a slice that may be nil is an Option.
module Records {
  import opened Common

  datatype TcpListener = TcpListener(address: string, clusterAddress: string)

  datatype VaultCluster = VaultCluster(
    id: string,
    name: string,
    region: string,
    defaultLeaseTtl: string,
    maxLeaseTtl: string,
    tcpListener: TcpListener)

  datatype VcsRepo = VcsRepo(
    oauthTokenId: string,
    branch: string,
    ingressSubmodules: bool,
    identifier: string)

  datatype TerraformWorkspace = TerraformWorkspace(
    id: string,
    name: string,
    agentPoolId: string,
    allowDestroyPlan: Option<bool>,
    autoApply: bool,
    description: string,
    executionMode: string,
    fileTriggersEnabled: Option<bool>,
    sourceName: string,
    sourceUrl: string,
    queueAllRuns: bool,
    speculativeEnabled: Option<bool>,
    terraformVersion: string,
    triggerPrefixes: Option<seq<string>>,
    workingDirectory: string,
    vcsRepo: VcsRepo)

  datatype ConsulAddresses = ConsulAddresses(dns: string, http: string, https: string, grpc: string)

  datatype ConsulPorts = ConsulPorts(
    dns: int,
    http: int,
    https: int,
    grpc: int,
    serfLan: int,
    serfWan: int,
    server: int,
    sidecarMinPort: Option<int>,
    sidecarMaxPort: Option<int>,
    exposeMinPort: Option<int>,
    exposeMaxPort: Option<int>)

  datatype ConsulCluster = ConsulCluster(
    id: string,
    name: string,
    bindAddr: string,
    addresses: ConsulAddresses,
    ports: ConsulPorts)

  datatype NomadAdvertise = NomadAdvertise(http: string, rpc: string, serf: string)

  datatype NomadPorts = NomadPorts(http: int, rpc: int, serf: int)

  datatype ServerJoin = ServerJoin(
    retryJoin: Option<seq<string>>,
    retryInterval: string,
    retryMax: int,
    startJoin: Option<seq<string>>)

  datatype NomadServer = NomadServer(serverJoin: ServerJoin)

  datatype NomadCluster = NomadCluster(
    id: string,
    name: string,
    datacenter: string,
    bindAddr: string,
    advertise: NomadAdvertise,
    ports: NomadPorts,
    server: NomadServer)

  // The four access-policy payloads.
  datatype TerraformPolicy = TerraformPolicy(workspaceId: string, plan: bool, apply: bool, overridePolicies: bool)

  datatype VaultPolicy = VaultPolicy(clusterId: string, key: string, read: bool, write: bool, delete: bool)

  datatype NomadPolicy = NomadPolicy(clusterId: string, submitJobs: bool, readJobStatus: bool, cancelJobs: bool)

  datatype ConsulPolicy = ConsulPolicy(clusterId: string, key: string, read: bool, write: bool, delete: bool)
}
