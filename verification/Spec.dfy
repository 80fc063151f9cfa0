/**
 The AppDefinition resource: api/v1/appdefinition_types.go. Fields that the operator only copies
 into one object without looking at them are kept as one opaque string.
 */
module Spec {
  import opened Common

  datatype App = App(name: string, ns: string, uid: string, spec: AppSpec)

  datatype AppSpec = AppSpec(
    paused: bool,
    containers: seq<ContainerSpec>,
    initContainers: seq<ContainerSpec>,
    replicas: Option<int>,
    domains: seq<DomainSpec>,
    disk: Option<DiskConfig>,
    lifecycle: Option<Lifecycle>,
    serviceType: string,
    ingressClass: string,
    ingressAnnotations: map<string, string>,
    autoscaling: Option<AutoscalingSpec>,
    configMaps: seq<ConfigMapMount>,
    secrets: seq<SecretMount>,
    externalSecrets: seq<ExternalSecretMount>,
    secretStore: Option<SecretStoreSpec>,
    podRest: string)

  datatype PortSpec = PortSpec(name: string, containerPort: int, servicePort: int, protocol: string, expose: bool,
                               metrics: Option<MetricsSpec>)

  datatype MetricsSpec = MetricsSpec(enabled: bool, path: string, interval: string, labels: map<string, string>)

  /** Main and init containers; an init container has no ports. */
  datatype ContainerSpec = ContainerSpec(name: string, ports: seq<PortSpec>, rest: string)

  datatype Lifecycle = Lifecycle(postStart: Option<string>, preStop: Option<string>)

  datatype DiskPartition = DiskPartition(subPath: string, mountPath: string)

  datatype DiskConfig = DiskConfig(sizeInGi: int, storageClassName: string, partitions: seq<DiskPartition>,
                                   annotations: map<string, string>, protect: bool)

  datatype AutoscalingSpec = AutoscalingSpec(enabled: bool, limits: string)

  datatype ConfigMapMount = ConfigMapMount(name: string, mountPath: string, data: map<string, string>)

  /** data is None when the field is absent (a nil map in the source). */
  datatype SecretMount = SecretMount(name: string, mountPath: string, asEnvVars: bool,
                                     data: Option<map<string, string>>, secretRef: string)

  datatype ExternalSecretMount = ExternalSecretMount(name: string, store: string, storeKind: string,
                                                     refreshInterval: string, mountPath: string, asEnvVars: bool,
                                                     data: seq<RemoteData>, dataFrom: seq<RemoteExtract>)

  datatype RemoteData = RemoteData(secretKey: string, key: string, property: string, version: string)

  datatype RemoteExtract = RemoteExtract(key: string, version: string)

  datatype SecretStoreSpec = SecretStoreSpec(name: string, scope: string, vault: VaultSpec)

  datatype VaultSpec = VaultSpec(server: string, path: string, version: string, authMountPath: string, role: string)

  datatype DomainSpec = DomainSpec(name: string, tls: bool, redirectTls: bool, certIssuer: string, path: string,
                                   annotations: map<string, string>, portName: string, secretName: string,
                                   middlewares: Option<MiddlewaresSpec>)

  /** Each configured middleware body is opaque. */
  datatype MiddlewaresSpec = MiddlewaresSpec(
    redirectScheme: Option<string>,
    ipWhiteList: Option<string>,
    rateLimit: Option<string>,
    forwardAuth: Option<string>,
    basicAuth: Option<string>,
    headers: Option<string>,
    compress: Option<string>,
    rewrite: Option<string>)
}
