/**
 What one reconcile of an AppDefinition asks of the cluster, step by step: the objects each
 internal/controller/reconcile_*.go file renders and the order of reconcileAll.
 */
module Desired {
  import opened Common
  import opened Names
  import opened Chain
  import opened Spec
  import opened Pod
  import opened ConfigHash
  import opened Cluster

  /** Which optional kinds the cluster serves; middlewares says whether only the legacy group is. */
  datatype Discovery = Discovery(externalSecrets: bool, secretStores: bool, middlewares: Option<bool>,
                                 serviceMonitors: bool)

  /** A new object as the operator renders it. */
  function Fresh(labels: map<string, string>, owner: Option<Owner>, body: Body): Obj {
    Obj(labels, owner, map[], None, body, None, "")
  }

  function Mine(app: App, body: Body): Obj {
    Fresh(StandardLabels(app.name), Some(Me(app)), body)
  }

  /** A write of one of the five pruned kinds: in place for built-in kinds, whole for custom ones. */
  predicate IsWrite(app: App, op: Op, kind: Kind) {
    (op.Apply? || op.Replace?) && op.key.kind == kind && op.key.ns == app.ns &&
    (if kind in {ConfigMap, Secret, Ingress} then op.Apply? else op.Replace?) &&
    op.want.labels == StandardLabels(app.name) && op.want.owner == Some(Me(app)) && op.want.nudge == None &&
    !op.want.body.Workload? && !op.want.body.Claim?
  }

  predicate AllWrites(app: App, ops: seq<Op>, kind: Kind) {
    forall op :: op in ops ==> IsWrite(app, op, kind)
  }

  function WriteNames(ops: seq<Op>): set<string> {
    if ops == [] then {}
    else (if ops[0].Apply? || ops[0].Replace? then {ops[0].key.name} else {}) + WriteNames(ops[1..])
  }

  lemma {:induction false} WriteNamesAppend(a: seq<Op>, b: seq<Op>)
    ensures WriteNames(a + b) == WriteNames(a) + WriteNames(b)
  {
    if a == [] {
      assert a + b == b;
    } else {
      assert (a + b)[1..] == a[1..] + b;
      WriteNamesAppend(a[1..], b);
    }
  }

  /** Writes, then the prune that keeps exactly what they name. */
  function Sealed(writes: seq<Op>, kind: Kind): seq<Op> {
    writes + [Prune(kind, WriteNames(writes))]
  }

  // ----- Steps and the operations they may hold -----

  const RETRY_STEP := 4
  const DEPLOY_STEP := 5

  /** The step that writes objects of a kind. */
  function StepOf(kind: Kind): (i: nat)
    ensures i < 12 && i != RETRY_STEP
  {
    match kind
    case ConfigMap => 0
    case Secret => 1
    case ServiceAccount => 2
    case SecretStore => 2
    case ExternalSecret => 3
    case Deployment => DEPLOY_STEP
    case Service => 6
    case Pvc => 7
    case Middleware => 8
    case Ingress => 9
    case Hpa => 10
    case ServiceMonitor => 11
  }

  /** What every operation of step i satisfies: it belongs to the step's kind, it renders objects owned
      by the app or by nobody, and only the Deployment step writes workloads. */
  predicate Proper(app: App, i: nat, op: Op) {
    !op.Sweep? &&
    (if i == RETRY_STEP then op.Nudge? && OpKind(op) in {SecretStore, ExternalSecret}
     else StepOf(OpKind(op)) == i && !op.Nudge?) &&
    (i != DEPLOY_STEP && (op.Apply? || op.Guarded? || op.Replace? || op.Ensure?) ==> !op.want.body.Workload?) &&
    (op.Apply? || op.Guarded? ==> op.want.owner == Some(Me(app)) && op.key.kind in APPLIED) &&
    (op.Replace? ==> op.want.owner == Some(Me(app)) && op.key.kind in {ExternalSecret, Middleware, ServiceMonitor}) &&
    (op.Ensure? ==> op.want.owner in {None, Some(Me(app))} && op.key.kind in {ServiceAccount, SecretStore}) &&
    (op.Drop? ==> op.key.kind in {Service, Hpa, ServiceMonitor}) &&
    (op.Prune? ==> op.kind in PRUNED)
  }

  predicate ProperStep(app: App, i: nat, ops: seq<Op>) {
    forall op :: op in ops ==> Proper(app, i, op)
  }

  const APPLIED := {ConfigMap, Secret, Deployment, Service, Pvc, Ingress, Hpa}
  const PRUNED := {ConfigMap, Secret, ExternalSecret, Middleware, Ingress}

  // ----- ConfigMaps -----

  function ConfigMapWrite(app: App, cm: ConfigMapMount): (op: Op)
    ensures IsWrite(app, op, ConfigMap)
  {
    Apply(Key(ConfigMap, app.ns, Child(app.name, cm.name)), Mine(app, Data(cm.data)))
  }

  function ConfigMapWrites(app: App, cms: seq<ConfigMapMount>): (ops: seq<Op>)
    ensures AllWrites(app, ops, ConfigMap)
  {
    if cms == [] then [] else [ConfigMapWrite(app, cms[0])] + ConfigMapWrites(app, cms[1..])
  }

  function ConfigMapOps(app: App): (ops: seq<Op>)
    ensures ProperStep(app, 0, ops)
  {
    Sealed(ConfigMapWrites(app, app.spec.configMaps), ConfigMap)
  }

  // ----- Secrets -----

  function InlineData(sec: SecretMount): map<string, string> {
    if sec.data.Some? then sec.data.value else map[]
  }

  function SecretWrite(app: App, sec: SecretMount): (op: Op)
    ensures IsWrite(app, op, Secret)
  {
    Apply(Key(Secret, app.ns, Child(app.name, sec.name)), Mine(app, Data(InlineData(sec))))
  }

  /** A referenced secret is not managed. */
  function SecretWrites(app: App, secs: seq<SecretMount>): (ops: seq<Op>)
    ensures AllWrites(app, ops, Secret)
  {
    if secs == [] then []
    else if secs[0].secretRef != "" then SecretWrites(app, secs[1..])
    else [SecretWrite(app, secs[0])] + SecretWrites(app, secs[1..])
  }

  function SecretOps(app: App): (ops: seq<Op>)
    ensures ProperStep(app, 1, ops)
  {
    Sealed(SecretWrites(app, app.spec.secrets), Secret)
  }

  // ----- SecretStore and its ServiceAccount -----

  /** secretStoreScope: an empty scope means Namespace. */
  predicate AppScoped(store: SecretStoreSpec) {
    store.scope == "App"
  }

  predicate NamespaceScoped(store: SecretStoreSpec) {
    store.scope == "" || store.scope == "Namespace"
  }

  function AccountName(app: App, store: SecretStoreSpec): string {
    if AppScoped(store) then app.name else app.ns
  }

  function Default(s: string, d: string): string {
    if s == "" then d else s
  }

  function StoreOwner(app: App, store: SecretStoreSpec): Option<Owner> {
    if AppScoped(store) then Some(Me(app)) else None
  }

  function StoreBody(app: App, store: SecretStoreSpec): Body {
    var sa, v := AccountName(app, store), store.vault;
    Vault(v.server, Default(v.path, "secret"), Default(v.version, "v2"), Default(v.authMountPath, "kubernetes"),
          Default(v.role, app.ns + "-" + sa), sa)
  }

  function AccountOp(app: App, store: SecretStoreSpec): Op {
    Ensure(Key(ServiceAccount, app.ns, AccountName(app, store)), Fresh(map[], StoreOwner(app, store), Identity))
  }

  function StoreOp(app: App, store: SecretStoreSpec): Op {
    Ensure(Key(SecretStore, app.ns, store.name), Fresh(map[], StoreOwner(app, store), StoreBody(app, store)))
  }

  function StoreOps(app: App, disc: Discovery): (ops: seq<Op>)
    ensures ProperStep(app, 2, ops)
  {
    match app.spec.secretStore
    case None => []
    case Some(store) => if disc.secretStores then [AccountOp(app, store), StoreOp(app, store)]
                        else [AccountOp(app, store)]
  }

  // ----- ExternalSecrets -----

  function ExternalBody(app: App, es: ExternalSecretMount): Body {
    External(Default(es.refreshInterval, "1m"), es.store, Default(es.storeKind, "ClusterSecretStore"),
             Child(app.name, es.name), StandardLabels(app.name), es.data, es.dataFrom)
  }

  function ExternalKey(app: App, es: ExternalSecretMount): Key {
    Key(ExternalSecret, app.ns, Child(app.name, es.name))
  }

  function ExternalWrite(app: App, es: ExternalSecretMount): (op: Op)
    ensures IsWrite(app, op, ExternalSecret)
  {
    Replace(ExternalKey(app, es), Mine(app, ExternalBody(app, es)))
  }

  function ExternalWrites(app: App, ess: seq<ExternalSecretMount>): (ops: seq<Op>)
    ensures AllWrites(app, ops, ExternalSecret)
  {
    if ess == [] then []
    else [ExternalWrite(app, ess[0])] + ExternalWrites(app, ess[1..])
  }

  function ExternalOps(app: App, disc: Discovery): (ops: seq<Op>)
    ensures ProperStep(app, 3, ops)
  {
    if !disc.externalSecrets then []
    else Sealed(ExternalWrites(app, app.spec.externalSecrets), ExternalSecret)
  }

  // ----- Nudging -----

  function ExternalNudges(app: App, ess: seq<ExternalSecretMount>, now: int): (ops: seq<Op>)
    ensures forall op :: op in ops ==> op.Nudge? && op.key.kind == ExternalSecret
  {
    if ess == [] then [] else [Nudge(ExternalKey(app, ess[0]), now)] + ExternalNudges(app, ess[1..], now)
  }

  function RetryOps(app: App, disc: Discovery, now: int): (ops: seq<Op>)
    ensures ProperStep(app, RETRY_STEP, ops)
  {
    if app.spec.externalSecrets == [] then []
    else
      var nudges := if disc.externalSecrets then ExternalNudges(app, app.spec.externalSecrets, now) else [];
      if app.spec.secretStore.Some? && disc.secretStores
      then [Nudge(Key(SecretStore, app.ns, app.spec.secretStore.value.name), now)] + nudges else nudges
  }

  // ----- Deployment -----

  function WantedReplicas(app: App): int {
    if app.spec.replicas.Some? then app.spec.replicas.value else 1
  }

  ghost function PodTemplate(app: App): Template {
    Template(SelectorLabels(app.name), ConfigStream(app.spec), None, Volumes(app), InitContainers(app),
             MainContainers(app),
             app.spec.podRest)
  }

  ghost function DeployOp(app: App): (op: Op)
    ensures Proper(app, DEPLOY_STEP, op)
  {
    Apply(Key(Deployment, app.ns, app.name),
          Mine(app, Workload(WantedReplicas(app), app.spec.disk.Some?, Some(SelectorLabels(app.name)),
                             PodTemplate(app))))
  }

  // ----- Service -----

  function AllPorts(cs: seq<ContainerSpec>): seq<PortSpec> {
    if cs == [] then [] else AllPorts(cs[..|cs| - 1]) + cs[|cs| - 1].ports
  }

  function Protocol(p: PortSpec): string {
    Default(p.protocol, "TCP")
  }

  function Exposed(ports: seq<PortSpec>): seq<ServicePort> {
    if ports == [] then []
    else
      var r, p := Exposed(ports[..|ports| - 1]), ports[|ports| - 1];
      if p.expose then r + [ServicePort(p.name, p.servicePort, p.containerPort, Protocol(p))] else r
  }

  function ServicePorts(app: App): seq<ServicePort> {
    Exposed(AllPorts(app.spec.containers))
  }

  function ServiceOps(app: App): (ops: seq<Op>)
    ensures ProperStep(app, 6, ops)
  {
    var key := Key(Service, app.ns, app.name);
    if ServicePorts(app) == [] then [Drop(key)]
    else [Apply(key,
                Mine(app, Ports(Default(app.spec.serviceType, "ClusterIP"), SelectorLabels(app.name),
                                ServicePorts(app))))]
  }

  // ----- PVC -----

  const GI := 1_073_741_824

  function PvcKey(app: App): Key {
    Key(Pvc, app.ns, PvcName(app.name))
  }

  function PvcWant(app: App, disk: DiskConfig): Obj {
    Mine(app, Claim(disk.sizeInGi * GI, ["ReadWriteOnce"],
                    if disk.storageClassName != "" then Some(disk.storageClassName)
                    else None)).(annotations := disk.annotations)
  }

  function PvcOps(app: App): (ops: seq<Op>)
    ensures ProperStep(app, 7, ops)
  {
    match app.spec.disk
    case None => []
    case Some(disk) =>
      if disk.protect then [Guarded(PvcKey(app), PvcWant(app, disk))] else [Apply(PvcKey(app), PvcWant(app, disk))]
  }

  // ----- Middlewares -----

  const AUTO_REDIRECT := "scheme: https, permanent: true"

  /** buildMiddlewareSpec: the configured body, or the automatic HTTPS redirect. */
  function HopConfig(d: DomainSpec, kind: MiddlewareKind): string {
    if d.middlewares == None then AUTO_REDIRECT
    else
      var mw := d.middlewares.value;
      match kind
      case RedirectScheme => if mw.redirectScheme.Some? then mw.redirectScheme.value else AUTO_REDIRECT
      case IpAllow => if mw.ipWhiteList.Some? then mw.ipWhiteList.value else ""
      case RateLimit => if mw.rateLimit.Some? then mw.rateLimit.value else ""
      case ForwardAuth => if mw.forwardAuth.Some? then mw.forwardAuth.value else ""
      case BasicAuth => if mw.basicAuth.Some? then mw.basicAuth.value else ""
      case Headers => if mw.headers.Some? then mw.headers.value else ""
      case Compress => if mw.compress.Some? then mw.compress.value else ""
      case Rewrite => if mw.rewrite.Some? then mw.rewrite.value else ""
  }

  function HopKey(app: App, d: DomainSpec, kind: MiddlewareKind): Key {
    Key(Middleware, app.ns, MiddlewareName(app.name, d.name, d.path, kind))
  }

  function HopWrite(app: App, legacy: bool, d: DomainSpec, kind: MiddlewareKind): (op: Op)
    ensures IsWrite(app, op, Middleware)
  {
    Replace(HopKey(app, d, kind), Mine(app, Hop(kind, legacy, HopConfig(d, kind))))
  }

  function HopWrites(app: App, legacy: bool, d: DomainSpec, kinds: seq<MiddlewareKind>): (ops: seq<Op>)
    ensures AllWrites(app, ops, Middleware)
  {
    seq(|kinds|, i requires 0 <= i < |kinds| => HopWrite(app, legacy, d, kinds[i]))
  }

  function MiddlewareWrites(app: App, legacy: bool, ds: seq<DomainSpec>): (ops: seq<Op>)
    ensures AllWrites(app, ops, Middleware)
  {
    if ds == [] then [] else HopWrites(app, legacy, ds[0], EnabledKinds(ds[0])) + MiddlewareWrites(app, legacy, ds[1..])
  }

  function MiddlewareOps(app: App, disc: Discovery): (ops: seq<Op>)
    ensures ProperStep(app, 8, ops)
  {
    if disc.middlewares == None then []
    else Sealed(MiddlewareWrites(app, disc.middlewares.value, app.spec.domains), Middleware)
  }

  // ----- Ingresses -----

  const CHAIN_KEY := "traefik.ingress.kubernetes.io/router.middlewares"
  const ISSUER_KEY := "cert-manager.io/cluster-issuer"

  /** Global annotations, the domain's own over them, then the certificate issuer. */
  function BaseAnnotations(app: App, d: DomainSpec): map<string, string> {
    var merged := app.spec.ingressAnnotations + d.annotations;
    if d.tls && d.certIssuer != "" then merged[ISSUER_KEY := d.certIssuer] else merged
  }

  function ExplicitRaw(app: App, d: DomainSpec): string {
    var base := BaseAnnotations(app, d);
    if CHAIN_KEY in base then base[CHAIN_KEY] else ""
  }

  function DomainRefs(app: App, d: DomainSpec): seq<string> {
    NativeRefs(app.ns, app.name, d, EnabledKinds(d))
  }

  function IngressAnnotationsFor(app: App, d: DomainSpec): map<string, string> {
    var base := BaseAnnotations(app, d);
    if EnabledKinds(d) == [] then base
    else base[CHAIN_KEY := JoinComma(ChainRefs(ExplicitRaw(app, d), DomainRefs(app, d)))]
  }

  function TlsSecretName(app: string, domain: string): string {
    app + "-" + Sanitized(domain) + "-tls"
  }

  function RouteBody(app: App, d: DomainSpec): Body {
    Route(if app.spec.ingressClass != "" then Some(app.spec.ingressClass) else None,
          if d.tls then Some(Tls(d.name, if d.secretName == "" then TlsSecretName(app.name, d.name) else d.secretName))
          else None,
          d.name, Default(d.path, "/"), app.name, Default(d.portName, "http"))
  }

  function IngressKey(app: App, d: DomainSpec): Key {
    Key(Ingress, app.ns, DomainIngressName(app.name, d.name, d.path))
  }

  function IngressWant(app: App, d: DomainSpec): Obj {
    Mine(app, RouteBody(app, d)).(annotations := IngressAnnotationsFor(app, d))
  }

  function IngressWrite(app: App, d: DomainSpec): (op: Op)
    ensures IsWrite(app, op, Ingress) && Proper(app, 9, op)
  {
    Apply(IngressKey(app, d), IngressWant(app, d))
  }

  function IngressWrites(app: App, ds: seq<DomainSpec>): (ops: seq<Op>)
    ensures AllWrites(app, ops, Ingress) && ProperStep(app, 9, ops)
  {
    seq(|ds|, i requires 0 <= i < |ds| => IngressWrite(app, ds[i]))
  }

  function IngressOps(app: App): (ops: seq<Op>)
    ensures ProperStep(app, 9, ops)
  {
    Sealed(IngressWrites(app, app.spec.domains), Ingress)
  }

  // ----- HPA and ServiceMonitor -----

  function HpaOps(app: App): (ops: seq<Op>)
    ensures ProperStep(app, 10, ops)
  {
    var key := Key(Hpa, app.ns, app.name);
    if app.spec.autoscaling.None? || !app.spec.autoscaling.value.enabled then [Drop(key)]
    else [Apply(key, Mine(app, Scaler(app.name, app.spec.autoscaling.value.limits)))]
  }

  predicate Scraped(p: PortSpec) {
    p.metrics.Some? && p.metrics.value.enabled
  }

  function ScrapeOf(p: PortSpec): Scrape
    requires Scraped(p)
  {
    Scrape(p.name, Default(p.metrics.value.path, "/metrics"), p.metrics.value.interval)
  }

  /** One endpoint per port name, the first port of the name winning. */
  function Scrapes(ports: seq<PortSpec>): seq<Scrape> {
    if ports == [] then []
    else
      var r, p := Scrapes(ports[..|ports| - 1]), ports[|ports| - 1];
      if Scraped(p) && (forall i :: 0 <= i < |r| ==> r[i].port != p.name) then r + [ScrapeOf(p)] else r
  }

  function ScrapeLabels(base: map<string, string>, ports: seq<PortSpec>): map<string, string> {
    if ports == [] then base
    else
      var r, p := ScrapeLabels(base, ports[..|ports| - 1]), ports[|ports| - 1];
      if Scraped(p) then r + p.metrics.value.labels else r
  }

  function MonitorKey(app: App): Key {
    Key(ServiceMonitor, app.ns, app.name + "-monitor")
  }

  function MonitorOps(app: App, disc: Discovery): (ops: seq<Op>)
    ensures ProperStep(app, 11, ops)
  {
    var ports := AllPorts(app.spec.containers);
    if !disc.serviceMonitors then []
    else if Scrapes(ports) == [] then [Drop(MonitorKey(app))]
    else [Replace(MonitorKey(app),
                  Fresh(ScrapeLabels(StandardLabels(app.name), ports), Some(Me(app)),
                        Monitor(app.name, Scrapes(ports), app.ns)))]
  }

  // ----- Every write comes from an entry -----

  lemma {:induction false} ConfigMapsWritten(app: App, cms: seq<ConfigMapMount>)
    ensures forall cm :: cm in cms ==> ConfigMapWrite(app, cm) in ConfigMapWrites(app, cms)
    ensures forall op :: op in ConfigMapWrites(app, cms) ==> exists cm :: cm in cms && op == ConfigMapWrite(app, cm)
  {
    if cms != [] {
      ConfigMapsWritten(app, cms[1..]);
      assert cms == [cms[0]] + cms[1..];
    }
  }

  lemma {:induction false} SecretsWritten(app: App, secs: seq<SecretMount>)
    ensures forall sec :: sec in secs && sec.secretRef == "" ==> SecretWrite(app, sec) in SecretWrites(app, secs)
    ensures forall op :: op in SecretWrites(app, secs) ==>
              exists sec :: sec in secs && sec.secretRef == "" && op == SecretWrite(app, sec)
  {
    if secs != [] {
      SecretsWritten(app, secs[1..]);
      assert secs == [secs[0]] + secs[1..];
    }
  }

  lemma {:induction false} ExternalsWritten(app: App, ess: seq<ExternalSecretMount>)
    ensures forall es :: es in ess ==> ExternalWrite(app, es) in ExternalWrites(app, ess)
    ensures forall op :: op in ExternalWrites(app, ess) ==> exists es :: es in ess && op == ExternalWrite(app, es)
  {
    if ess != [] {
      ExternalsWritten(app, ess[1..]);
      assert ess == [ess[0]] + ess[1..];
    }
  }

  lemma {:induction false} HopsWritten(app: App, legacy: bool, d: DomainSpec, kinds: seq<MiddlewareKind>)
    ensures forall kind :: kind in kinds ==> HopWrite(app, legacy, d, kind) in HopWrites(app, legacy, d, kinds)
    ensures forall op :: op in HopWrites(app, legacy, d, kinds) ==>
              exists kind :: kind in kinds && op == HopWrite(app, legacy, d, kind)
  {
    var ops := HopWrites(app, legacy, d, kinds);
    forall kind | kind in kinds
      ensures HopWrite(app, legacy, d, kind) in ops
    {
      var i: nat :| i < |kinds| && kinds[i] == kind;
      assert ops[i] == HopWrite(app, legacy, d, kind);
    }
    forall op | op in ops
      ensures exists kind :: kind in kinds && op == HopWrite(app, legacy, d, kind)
    {
      var i: nat :| i < |ops| && ops[i] == op;
      assert kinds[i] in kinds;
    }
  }

  lemma {:induction false} MiddlewaresWritten(app: App, legacy: bool, ds: seq<DomainSpec>)
    ensures forall d, kind :: d in ds && kind in EnabledKinds(d) ==>
              HopWrite(app, legacy, d, kind) in MiddlewareWrites(app, legacy, ds)
    ensures forall op :: op in MiddlewareWrites(app, legacy, ds) ==>
              exists d, kind :: d in ds && kind in EnabledKinds(d) && op == HopWrite(app, legacy, d, kind)
  {
    if ds != [] {
      var kinds := EnabledKinds(ds[0]);
      MiddlewaresWritten(app, legacy, ds[1..]);
      HopsWritten(app, legacy, ds[0], kinds);
      assert ds == [ds[0]] + ds[1..];
    }
  }

  // ----- reconcileAll -----

  const STEPS := 12

  /** The steps in order. The PVC step has no operations without a disk, the retry step none without
      external secrets. */
  ghost function StepOps(app: App, disc: Discovery, now: int, i: nat): seq<Op>
    requires i < STEPS
  {
    match i
    case 0 => ConfigMapOps(app)
    case 1 => SecretOps(app)
    case 2 => StoreOps(app, disc)
    case 3 => ExternalOps(app, disc)
    case 4 => RetryOps(app, disc, now)
    case 5 => [DeployOp(app)]
    case 6 => ServiceOps(app)
    case 7 => PvcOps(app)
    case 8 => MiddlewareOps(app, disc)
    case 9 => IngressOps(app)
    case 10 => HpaOps(app)
    case _ => MonitorOps(app, disc)
  }

  ghost function Segments(app: App, disc: Discovery, now: int): seq<seq<Op>> {
    seq(STEPS, i requires 0 <= i < STEPS => StepOps(app, disc, now, i))
  }

  function Flatten(segments: seq<seq<Op>>): seq<Op> {
    if segments == [] then [] else segments[0] + Flatten(segments[1..])
  }

  ghost function Program(app: App, disc: Discovery, now: int): seq<Op> {
    if app.spec.paused then [] else Flatten(Segments(app, disc, now))
  }

  lemma {:induction false} IngressStepOps(app: App, disc: Discovery, now: int)
    ensures StepOps(app, disc, now, 9) == IngressOps(app)
  {
  }

  /** Each kind is written by its own step; the retry step only nudges. */
  lemma {:induction false} SegmentsAreProper(app: App, disc: Discovery, now: int, i: nat)
    requires i < STEPS
    ensures ProperStep(app, i, StepOps(app, disc, now, i))
  {
  }
}
