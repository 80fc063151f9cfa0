/**
 One status update, and the reconcile around it: updateStatusOnce in
 internal/controller/reconcile_status.go, Reconcile and handleDeletion in
 internal/controller/appdefinition_controller.go.
 */
module StatusUpdate {
  import opened Common
  import opened Names
  import opened Chain
  import opened Spec
  import opened Cluster
  import opened Desired
  import opened Rendering
  import opened ReconcileLoops
  import opened Runs
  import opened Status
  import Recovery
  import Watches
  import Routes

  datatype Address = Address(ip: string, hostname: string)

  /** What other controllers report about the objects of the app; ingress maps Ingress names to the
      addresses they were given. */
  datatype Live = Live(readyReplicas: int, bound: bool, ingress: map<string, seq<Address>>)

  /** What API discovery says of an optional kind. */
  datatype Mapped = Served | NotServed | Broken

  datatype Apis = Apis(externalSecrets: Mapped, serviceMonitors: Mapped, middlewares: Mapped)

  datatype Phase = Available | Progressing | Failed | Paused

  datatype StatusBody = StatusBody(phase: Phase, replicas: int, readyReplicas: int, observedGeneration: int,
                                   lastError: string, conditions: seq<Cond>)

  // ----- The verdicts -----

  /** A verdict is true only when what it reports holds and, if every call was answered (up), whenever it
      does: a failed read never makes a condition true. */
  predicate Judges(v: Verdict, holds: bool, up: bool) {
    (v.status == Yes ==> holds) && (up && holds ==> v.status == Yes)
  }

  /** The app is up: not paused, reconciled without error, and enough replicas are ready. */
  predicate Up(app: App, err: Option<string>, found: bool, ready: int) {
    !app.spec.paused && err.None? && found &&
    ready >= if app.spec.replicas.Some? then app.spec.replicas.value else 1
  }

  /** One replica unless the spec says otherwise. */
  method DesiredReplicas(app: App) returns (n: int)
    ensures n == if app.spec.replicas.Some? then app.spec.replicas.value else 1
  {
    n := 1;
    if app.spec.replicas.Some? {
      n := app.spec.replicas.value;
    }
  }

  /** The phase switch of updateStatusOnce. */
  method Assess(app: App, err: Option<string>, found: bool, ready: int)
    returns (phase: Phase, lastError: string, verdict: Verdict)
    ensures phase == Available <==> Up(app, err, found, ready)
    ensures verdict.status == Yes <==> phase == Available
    ensures verdict.status != Unknown
    ensures verdict.reason == match phase
                              case Available => "DeploymentAvailable"
                              case Progressing => "Progressing"
                              case Failed => "ReconcileError"
                              case Paused => "Paused"
    ensures phase == Paused <==> app.spec.paused
    ensures phase == Failed <==> !app.spec.paused && err.Some?
    ensures lastError == if phase == Failed then err.value else ""
  {
    phase, lastError, verdict := Progressing, "", Verdict(No, "Progressing");
    var desired := DesiredReplicas(app);
    if app.spec.paused {
      phase, verdict := Paused, Verdict(No, "Paused");
    } else if err.Some? {
      phase, lastError, verdict := Failed, err.value, Verdict(No, "ReconcileError");
    } else if found && ready >= desired {
      phase, verdict := Available, Verdict(Yes, "DeploymentAvailable");
    }
  }

  method DiskVerdict(app: App, cluster: Reconciler, live: Live) returns (v: Option<Verdict>)
    modifies cluster`answers, cluster`down
    ensures Spent(old(cluster.answers), old(cluster.down), cluster.answers, cluster.down)
    ensures v.Some? <==> app.spec.disk.Some?
    ensures v.Some? ==> Judges(v.value, PvcKey(app) in cluster.objs && live.bound, !cluster.down)
    ensures v.Some? && !cluster.down ==>
              (v.value.reason == "Protected" <==> PvcKey(app) !in cluster.objs && app.spec.disk.value.protect)
    ensures v.Some? ==> (v.value.reason == "Bound" <==> v.value.status == Yes)
    ensures v.Some? ==> v.value.reason in {"Bound", "Protected", "Provisioning"}
  {
    if app.spec.disk.None? {
      return None;
    }
    var verdict := Verdict(No, "Provisioning");
    var pvc := cluster.Fetch(PvcKey(app));
    if pvc.Absent? && app.spec.disk.value.protect {
      verdict := Verdict(No, "Protected");
    } else if pvc.Present? && live.bound {
      verdict := Verdict(Yes, "Bound");
    }
    v := Some(verdict);
  }

  predicate Assigned(addresses: seq<Address>) {
    exists i :: 0 <= i < |addresses| && (addresses[i].ip != "" || addresses[i].hostname != "")
  }

  /** The domain's own Ingress exists and has an address. */
  predicate Reachable(app: App, s: Objs, live: Live, d: DomainSpec) {
    var name := DomainIngressName(app.name, d.name, d.path);
    IngressKey(app, d) in s && name in live.ingress && Assigned(live.ingress[name])
  }

  method AnyAddress(addresses: seq<Address>) returns (found: bool)
    ensures found <==> Assigned(addresses)
  {
    found := false;
    for i := 0 to |addresses|
      invariant found <==> Assigned(addresses[..i])
    {
      assert addresses[..i + 1] == addresses[..i] + [addresses[i]];
      AssignedSnoc(addresses[..i], addresses[i]);
      if addresses[i].ip != "" {
        found := true;
      } else if addresses[i].hostname != "" {
        found := true;
      }
    }
    assert addresses[..|addresses|] == addresses;
  }

  lemma {:induction false} AssignedSnoc(addresses: seq<Address>, a: Address)
    ensures Assigned(addresses + [a]) <==> Assigned(addresses) || a.ip != "" || a.hostname != ""
  {
    var all := addresses + [a];
    assert all[|addresses|] == a;
    assert forall i :: 0 <= i < |addresses| ==> all[i] == addresses[i];
  }

  /** Whether the Ingress of one domain is there and has an address; an unanswered read counts as no. */
  method HasAddress(app: App, cluster: Reconciler, live: Live, d: DomainSpec) returns (has: bool)
    modifies cluster`answers, cluster`down
    ensures Spent(old(cluster.answers), old(cluster.down), cluster.answers, cluster.down)
    ensures has ==> Reachable(app, cluster.objs, live, d)
    ensures !cluster.down && Reachable(app, cluster.objs, live, d) ==> has
  {
    has := false;
    var ingress := cluster.Fetch(IngressKey(app, d));
    var name := DomainIngressName(app.name, d.name, d.path);
    if ingress.Present? && name in live.ingress {
      has := AnyAddress(live.ingress[name]);
    }
  }

  method IngressVerdict(app: App, cluster: Reconciler, live: Live) returns (v: Option<Verdict>)
    modifies cluster`answers, cluster`down
    ensures Spent(old(cluster.answers), old(cluster.down), cluster.answers, cluster.down)
    ensures v.Some? <==> app.spec.domains != []
    ensures v.Some? ==>
              Judges(v.value, forall d :: d in app.spec.domains ==> Reachable(app, cluster.objs, live, d),
                     !cluster.down)
    ensures v.Some? ==> v.value in {Verdict(Yes, "Assigned"), Verdict(No, "Pending")}
  {
    var ds := app.spec.domains;
    if ds == [] {
      return None;
    }
    var pending := 0;
    for i := 0 to |ds|
      invariant Spent(old(cluster.answers), old(cluster.down), cluster.answers, cluster.down)
      invariant 0 <= pending
      invariant pending == 0 ==> forall j :: 0 <= j < i ==> Reachable(app, cluster.objs, live, ds[j])
      invariant !cluster.down && pending > 0 ==> exists j :: 0 <= j < i && !Reachable(app, cluster.objs, live, ds[j])
    {
      var hasAddress := HasAddress(app, cluster, live, ds[i]);
      if !hasAddress {
        pending := pending + 1;
      }
    }
    v := Some(if pending > 0 then Verdict(No, "Pending") else Verdict(Yes, "Assigned"));
  }

  predicate Scaled(app: App) {
    app.spec.autoscaling.Some? && app.spec.autoscaling.value.enabled
  }

  method HpaVerdict(app: App, cluster: Reconciler) returns (v: Option<Verdict>)
    modifies cluster`answers, cluster`down
    ensures Spent(old(cluster.answers), old(cluster.down), cluster.answers, cluster.down)
    ensures v.Some? <==> Scaled(app)
    ensures v.Some? ==> Judges(v.value, Key(Hpa, app.ns, app.name) in cluster.objs, !cluster.down)
    ensures v.Some? ==> v.value in {Verdict(Yes, "Active"), Verdict(No, "Creating")}
  {
    if app.spec.autoscaling.None? || !app.spec.autoscaling.value.enabled {
      return None;
    }
    var hpa := cluster.Fetch(Key(Hpa, app.ns, app.name));
    v := Some(if hpa.Present? then Verdict(Yes, "Active") else Verdict(No, "Creating"));
  }

  /** Discovery failures that are not "no such kind" are reported as unknown. */
  function Unresolved(api: Mapped): Verdict
    requires api != Served
  {
    if api == Broken then Verdict(Unknown, "DiscoveryFailed") else Verdict(No, "CRDUnavailable")
  }

  /** updateExternalSecretsStatus. */
  method ExternalVerdict(app: App, cluster: Reconciler, api: Mapped) returns (v: Option<Verdict>)
    modifies cluster`answers, cluster`down
    ensures Spent(old(cluster.answers), old(cluster.down), cluster.answers, cluster.down)
    ensures v.Some? <==> app.spec.externalSecrets != []
    ensures v.Some? ==>
              Judges(v.value, api == Served && forall es :: es in app.spec.externalSecrets ==>
                      ExternalKey(app, es) in cluster.objs,
                     !cluster.down)
    ensures v.Some? ==> (v.value.status == Unknown <==> api == Broken)
    ensures v.Some? ==> v.value.reason == match api
                                          case Served =>
                                            if v.value.status == Yes then "ResourcesCreated" else "ResourcesPending"
                                          case NotServed => "CRDUnavailable"
                                          case Broken => "DiscoveryFailed"
  {
    var ess := app.spec.externalSecrets;
    if ess == [] {
      return None;
    }
    if api != Served {
      return Some(Unresolved(api));
    }
    var ready := 0;
    for i := 0 to |ess|
      invariant Spent(old(cluster.answers), old(cluster.down), cluster.answers, cluster.down)
      invariant 0 <= ready <= i
      invariant ready == i ==> forall j :: 0 <= j < i ==> ExternalKey(app, ess[j]) in cluster.objs
      invariant !cluster.down && ready < i ==> exists j :: 0 <= j < i && ExternalKey(app, ess[j]) !in cluster.objs
    {
      var obj := cluster.Fetch(ExternalKey(app, ess[i]));
      if obj.Present? {
        ready := ready + 1;
      }
    }
    v := Some(if ready == |ess| then Verdict(Yes, "ResourcesCreated") else Verdict(No, "ResourcesPending"));
  }

  /** updateMonitoringStatus. */
  method MonitorVerdict(app: App, cluster: Reconciler, api: Mapped) returns (v: Option<Verdict>)
    modifies cluster`answers, cluster`down
    ensures Spent(old(cluster.answers), old(cluster.down), cluster.answers, cluster.down)
    ensures v.Some? <==> Scrapes(AllPorts(app.spec.containers)) != []
    ensures v.Some? ==> Judges(v.value, api == Served && MonitorKey(app) in cluster.objs, !cluster.down)
  {
    var endpoints := BuildEndpoints(app);
    if |endpoints| == 0 {
      return None;
    }
    if api == NotServed {
      return Some(Verdict(No, "CRDUnavailable"));
    }
    if api == Broken {
      return Some(Verdict(Unknown, "ReadFailed"));
    }
    var obj := cluster.Fetch(MonitorKey(app));
    match obj
    case Down => v := Some(Verdict(Unknown, "ReadFailed"));
    case Absent => v := Some(Verdict(No, "ResourcePending"));
    case Present(_) => v := Some(Verdict(Yes, "ResourceCreated"));
  }

  /** The Middlewares that the domains ask for. */
  function WantedHops(app: App, ds: seq<DomainSpec>): seq<Key> {
    if ds == [] then [] else WantedHops(app, ds[..|ds| - 1]) + HopKeys(app, ds[|ds| - 1], EnabledKinds(ds[|ds| - 1]))
  }

  function HopKeys(app: App, d: DomainSpec, kinds: seq<MiddlewareKind>): seq<Key> {
    seq(|kinds|, i requires 0 <= i < |kinds| => HopKey(app, d, kinds[i]))
  }

  /** Some domain of the list asks for this Middleware. */
  ghost predicate WantedBy(app: App, ds: seq<DomainSpec>, k: Key) {
    exists d, kind :: d in ds && Wants(d, kind) && k == HopKey(app, d, kind)
  }

  ghost predicate WantedHere(app: App, d: DomainSpec, k: Key) {
    exists kind :: Wants(d, kind) && k == HopKey(app, d, kind)
  }

  lemma {:induction false} WantedHopsMean(app: App, ds: seq<DomainSpec>, k: Key)
    ensures k in WantedHops(app, ds) <==> WantedBy(app, ds, k)
  {
    if ds != [] {
      var init, d := ds[..|ds| - 1], ds[|ds| - 1];
      WantedHopsMean(app, init, k);
      HopKeysMean(app, d, EnabledKinds(d), k);
      WantedBySnoc(app, init, d, k);
      assert ds == init + [d];
    }
  }

  lemma {:induction false} WantedBySnoc(app: App, ds: seq<DomainSpec>, d: DomainSpec, k: Key)
    ensures WantedBy(app, ds + [d], k) <==> WantedBy(app, ds, k) || WantedHere(app, d, k)
  {
    if WantedBy(app, ds, k) {
      var e, kind :| e in ds && Wants(e, kind) && k == HopKey(app, e, kind);
      assert e in ds + [d];
    }
    if WantedHere(app, d, k) {
      var kind :| Wants(d, kind) && k == HopKey(app, d, kind);
      assert d in ds + [d];
    }
    if WantedBy(app, ds + [d], k) {
      var e, kind :| e in ds + [d] && Wants(e, kind) && k == HopKey(app, e, kind);
      assert e in ds || e == d;
    }
  }

  lemma {:induction false} HopKeysMean(app: App, d: DomainSpec, kinds: seq<MiddlewareKind>, k: Key)
    requires kinds == EnabledKinds(d)
    ensures k in HopKeys(app, d, kinds) <==> WantedHere(app, d, k)
  {
    EnabledKindsInChainOrder(d);
    if k in HopKeys(app, d, kinds) {
      var i: nat :| i < |kinds| && HopKeys(app, d, kinds)[i] == k;
      assert kinds[i] in kinds && Wants(d, kinds[i]);
    }
    if WantedHere(app, d, k) {
      var kind :| Wants(d, kind) && k == HopKey(app, d, kind);
      var i: nat :| i < |kinds| && kinds[i] == kind;
      assert HopKeys(app, d, kinds)[i] == k;
    }
  }

  /** The loop that counts the objects that can be read. */
  method CountPresent(keys: seq<Key>, cluster: Reconciler) returns (n: nat)
    modifies cluster`answers, cluster`down
    ensures Spent(old(cluster.answers), old(cluster.down), cluster.answers, cluster.down)
    ensures n == |keys| ==> forall k :: k in keys ==> k in cluster.objs
    ensures !cluster.down && (forall k :: k in keys ==> k in cluster.objs) ==> n == |keys|
  {
    n := 0;
    for i := 0 to |keys|
      invariant n <= i && (Spent(old(cluster.answers), old(cluster.down), cluster.answers, cluster.down))
      invariant n == i ==> forall j :: 0 <= j < i ==> keys[j] in cluster.objs
      invariant !cluster.down && n < i ==> exists j :: 0 <= j < i && keys[j] !in cluster.objs
    {
      var obj := cluster.Fetch(keys[i]);
      if obj.Present? {
        n := n + 1;
      }
    }
  }

  /** updateMiddlewaresStatus. */
  method MiddlewareVerdict(app: App, cluster: Reconciler, api: Mapped) returns (v: Option<Verdict>)
    modifies cluster`answers, cluster`down
    ensures Spent(old(cluster.answers), old(cluster.down), cluster.answers, cluster.down)
    ensures v.Some? <==> WantedHops(app, app.spec.domains) != []
    ensures v.Some? ==>
              Judges(v.value, api == Served && forall k :: k in WantedHops(app, app.spec.domains) ==> k in cluster.objs,
                     !cluster.down)
    ensures v.Some? ==> (v.value.status == Unknown <==> api == Broken)
    ensures v.Some? ==> v.value.reason == match api
                                          case Served =>
                                            if v.value.status == Yes then "ResourcesCreated" else "ResourcesPending"
                                          case NotServed => "CRDUnavailable"
                                          case Broken => "DiscoveryFailed"
  {
    var ds := app.spec.domains;
    var desired: seq<Key> := [];
    for i := 0 to |ds|
      invariant desired == WantedHops(app, ds[..i])
      invariant cluster.down == old(cluster.down) && cluster.answers == old(cluster.answers)
    {
      assert ds[..i + 1][..i] == ds[..i];
      var kinds := EnabledMiddlewareKinds(ds[i]);
      desired := desired + HopKeys(app, ds[i], kinds);
    }
    assert ds[..|ds|] == ds;
    if desired == [] {
      return None;
    }
    if api != Served {
      return Some(Unresolved(api));
    }
    var ready := CountPresent(desired, cluster);
    v := Some(if ready == |desired| then Verdict(Yes, "ResourcesCreated") else Verdict(No, "ResourcesPending"));
  }

  // ----- One update -----

  /** The stored AppDefinition. */
  class Record {
    var present: bool
    var app: App
    var generation: int
    var deleting: bool
    var finalizer: bool
    var status: StatusBody

    constructor (app: App, generation: int, deleting: bool, finalizer: bool, status: StatusBody)
      ensures present && this.app == app && this.generation == generation
      ensures this.deleting == deleting && this.finalizer == finalizer && this.status == status
    {
      present := true;
      this.app, this.generation, this.deleting, this.finalizer, this.status :=
        app, generation, deleting, finalizer, status;
    }
  }

  const CONDITIONS: seq<CondKind> :=
    [Ready, DiskReady, IngressReady, HpaActive, ExternalSecretsReady, MonitoringReady, MiddlewaresReady]

  /** When a condition is reported at all. The first four go by the spec that was reconciled, the last
      three by the spec as fetched again. */
  predicate Triggered(kind: CondKind, app: App, latest: App) {
    match kind
    case Ready => true
    case DiskReady => app.spec.disk.Some?
    case IngressReady => app.spec.domains != []
    case HpaActive => Scaled(app)
    case ExternalSecretsReady => latest.spec.externalSecrets != []
    case MonitoringReady => Scrapes(AllPorts(latest.spec.containers)) != []
    case MiddlewaresReady => WantedHops(latest, latest.spec.domains) != []
    case Other(_) => false
  }

  /** When a reported condition is true. */
  predicate Holds(kind: CondKind, app: App, latest: App, s: Objs, live: Live, apis: Apis) {
    match kind
    case Ready => false
    case DiskReady => PvcKey(app) in s && live.bound
    case IngressReady => forall d :: d in app.spec.domains ==> Reachable(app, s, live, d)
    case HpaActive => Key(Hpa, app.ns, app.name) in s
    case ExternalSecretsReady => apis.externalSecrets == Served && forall es :: es in latest.spec.externalSecrets ==>
           ExternalKey(latest, es) in s
    case MonitoringReady => apis.serviceMonitors == Served && MonitorKey(latest) in s
    case MiddlewaresReady => apis.middlewares == Served && forall k :: k in WantedHops(latest, latest.spec.domains) ==>
           k in s
    case Other(_) => false
  }

  predicate Fits(ch: Change, app: App, latest: App, ready: Verdict, s: Objs, live: Live, apis: Apis, up: bool) {
    (ch.verdict.Some? <==> Triggered(ch.kind, app, latest)) &&
    (ch.kind == Ready ==> ch.verdict == Some(ready)) &&
    (ch.kind != Ready && ch.verdict.Some? ==> Judges(ch.verdict.value, Holds(ch.kind, app, latest, s, live, apis), up))
  }

  /** What a status says of its conditions: each optional one is present exactly when its trigger holds,
      once, true only when it holds and, if every read was answered (up), whenever it holds; conditions
      of other controllers are untouched. */
  ghost predicate Reports(app: App, latest: App, ready: bool, s: Objs, live: Live, apis: Apis, generation: int,
                          up: bool,
                          before: seq<Cond>, after: seq<Cond>) {
    UniqueKinds(after) &&
    (forall kind :: kind in CONDITIONS ==> (Find(after, kind).Some? <==> Triggered(kind, app, latest))) &&
    (forall kind :: kind in CONDITIONS && Find(after, kind).Some? ==>
      Find(after, kind).value.generation == generation) &&
    Find(after, Ready).Some? && (Find(after, Ready).value.verdict.status == Yes <==> ready) &&
    (forall kind :: kind in CONDITIONS && kind != Ready && Find(after, kind).Some? ==>
       Judges(Find(after, kind).value.verdict, Holds(kind, app, latest, s, live, apis), up)) &&
    (forall kind :: kind !in CONDITIONS ==> Find(after, kind) == Find(before, kind))
  }

  lemma {:induction false} ChangesReport(app: App, latest: App, ready: Verdict, s: Objs, live: Live, apis: Apis,
                                         generation: int, now: int, up: bool,
                      before: seq<Cond>, changes: seq<Change>)
    requires UniqueKinds(before)
    requires |changes| == |CONDITIONS| && forall i :: 0 <= i < |changes| ==>
               changes[i].kind == CONDITIONS[i] && Fits(changes[i], app, latest, ready, s, live, apis, up)
    ensures Reports(app, latest, ready.status == Yes, s, live, apis, generation, up, before,
                    ChangedAll(before, changes, generation, now))
  {
    assert DistinctChanges(changes);
    AllChanged(before, changes, generation, now, Ready);
    forall kind | kind in CONDITIONS
      ensures ConditionReports(kind, app, latest, ready, s, live, apis, generation, up,
                               ChangedAll(before, changes, generation, now))
    {
      AllChanged(before, changes, generation, now, kind);
      var i: nat :| i < |CONDITIONS| && CONDITIONS[i] == kind;
      assert changes[i] in changes && Fits(changes[i], app, latest, ready, s, live, apis, up);
    }
    forall kind | kind !in CONDITIONS
      ensures Find(ChangedAll(before, changes, generation, now), kind) == Find(before, kind)
    {
      AllChanged(before, changes, generation, now, kind);
    }
    assert CONDITIONS[0] == Ready;
  }

  predicate ConditionReports(kind: CondKind, app: App, latest: App, ready: Verdict, s: Objs, live: Live, apis: Apis,
                             generation: int,
                             up: bool, after: seq<Cond>) {
    var c := Find(after, kind);
    (c.Some? <==> Triggered(kind, app, latest)) &&
    (c.Some? ==> c.value.generation == generation) &&
    (kind == Ready && c.Some? ==> c.value.verdict == ready) &&
    (kind != Ready && c.Some? ==> Judges(c.value.verdict, Holds(kind, app, latest, s, live, apis), up))
  }

  /** A verdict that fits its condition still does after calls that may have gone unanswered. */
  lemma {:induction false} Fitting(kind: CondKind, v: Option<Verdict>, app: App, latest: App, ready: Verdict, s: Objs,
                                   live: Live,
                                   apis: Apis, up: bool)
    requires kind != Ready
    requires v.Some? <==> Triggered(kind, app, latest)
    requires v.Some? ==> Judges(v.value, Holds(kind, app, latest, s, live, apis), up)
    ensures Fits(Change(kind, v), app, latest, ready, s, live, apis, up)
    ensures Fits(Change(kind, v), app, latest, ready, s, live, apis, false)
  {
  }

  /** The conditions that go by the spec that was reconciled. */
  method CollectOwn(app: App, latest: App, ready: Verdict, cluster: Reconciler, live: Live, apis: Apis)
    returns (disk: Change, ingress: Change, hpa: Change)
    modifies cluster`answers, cluster`down
    ensures Spent(old(cluster.answers), old(cluster.down), cluster.answers, cluster.down)
    ensures disk.kind == DiskReady && ingress.kind == IngressReady && hpa.kind == HpaActive
    ensures Fits(disk, app, latest, ready, cluster.objs, live, apis, !cluster.down)
    ensures Fits(ingress, app, latest, ready, cluster.objs, live, apis, !cluster.down)
    ensures Fits(hpa, app, latest, ready, cluster.objs, live, apis, !cluster.down)
  {
    var v := DiskVerdict(app, cluster, live);
    Fitting(DiskReady, v, app, latest, ready, cluster.objs, live, apis, !cluster.down);
    disk := Change(DiskReady, v);
    v := IngressVerdict(app, cluster, live);
    Fitting(IngressReady, v, app, latest, ready, cluster.objs, live, apis, !cluster.down);
    ingress := Change(IngressReady, v);
    v := HpaVerdict(app, cluster);
    Fitting(HpaActive, v, app, latest, ready, cluster.objs, live, apis, !cluster.down);
    hpa := Change(HpaActive, v);
  }

  /** The conditions that go by the spec as fetched again. */
  method CollectLatest(app: App, latest: App, ready: Verdict, cluster: Reconciler, live: Live, apis: Apis)
    returns (external: Change, monitor: Change, middleware: Change)
    modifies cluster`answers, cluster`down
    ensures Spent(old(cluster.answers), old(cluster.down), cluster.answers, cluster.down)
    ensures external.kind == ExternalSecretsReady && monitor.kind == MonitoringReady &&
            middleware.kind == MiddlewaresReady
    ensures Fits(external, app, latest, ready, cluster.objs, live, apis, !cluster.down)
    ensures Fits(monitor, app, latest, ready, cluster.objs, live, apis, !cluster.down)
    ensures Fits(middleware, app, latest, ready, cluster.objs, live, apis, !cluster.down)
  {
    var v := ExternalVerdict(latest, cluster, apis.externalSecrets);
    Fitting(ExternalSecretsReady, v, app, latest, ready, cluster.objs, live, apis, !cluster.down);
    external := Change(ExternalSecretsReady, v);
    v := MonitorVerdict(latest, cluster, apis.serviceMonitors);
    Fitting(MonitoringReady, v, app, latest, ready, cluster.objs, live, apis, !cluster.down);
    monitor := Change(MonitoringReady, v);
    v := MiddlewareVerdict(latest, cluster, apis.middlewares);
    Fitting(MiddlewaresReady, v, app, latest, ready, cluster.objs, live, apis, !cluster.down);
    middleware := Change(MiddlewaresReady, v);
  }

  /** All conditions, in the order of the source. */
  method Collect(app: App, latest: App, ready: Verdict, cluster: Reconciler, live: Live, apis: Apis)
      returns (changes: seq<Change>)
    modifies cluster`answers, cluster`down
    ensures Spent(old(cluster.answers), old(cluster.down), cluster.answers, cluster.down)
    ensures |changes| == |CONDITIONS| && forall i :: 0 <= i < |changes| ==>
              changes[i].kind == CONDITIONS[i] &&
              Fits(changes[i], app, latest, ready, cluster.objs, live, apis, !cluster.down)
  {
    var disk, ingress, hpa := CollectOwn(app, latest, ready, cluster, live, apis);
    var external, monitor, middleware := CollectLatest(app, latest, ready, cluster, live, apis);
    changes := [Change(Ready, Some(ready)), disk, ingress, hpa, external, monitor, middleware];
  }

  /** The changes made one after the other in the status that was fetched. */
  method ApplyAll(before: seq<Cond>, changes: seq<Change>, generation: int, now: int) returns (after: seq<Cond>)
    ensures after == ChangedAll(before, changes, generation, now)
  {
    var conditions := new ConditionList(before);
    for i := 0 to |changes|
      invariant conditions.items == ChangedAll(before, changes[..i], generation, now)
    {
      assert changes[..i + 1][..i] == changes[..i];
      conditions.Apply(changes[i], generation, now);
    }
    assert changes[..|changes|] == changes;
    after := conditions.items;
  }

  /** The ready replicas that the Deployment of the app reports, none while it does not exist. */
  function ReadyReplicas(app: App, s: Objs, live: Live): int {
    if Key(Deployment, app.ns, app.name) in s then live.readyReplicas else 0
  }

  /** What a status update tells of a reconcile of app that ended with err, written into the object latest:
      phase, counts, generation and conditions. */
  ghost predicate Tells(app: App, err: Option<string>, latest: App, generation: int, s: Objs, live: Live, apis: Apis,
                        up: bool,
                        before: StatusBody, after: StatusBody) {
    after.replicas == (if app.spec.replicas.Some? then app.spec.replicas.value else 1) &&
    after.readyReplicas == ReadyReplicas(app, s, live) &&
    after.observedGeneration == generation &&
    (after.phase == Available <==> Up(app, err, Key(Deployment, app.ns, app.name) in s, ReadyReplicas(app, s, live))) &&
    (after.phase == Paused <==> app.spec.paused) &&
    (after.phase == Failed <==> !app.spec.paused && err.Some?) &&
    after.lastError == (if after.phase == Failed then err.value else "") &&
    Reports(app, latest, after.phase == Available, s, live, apis, generation, up, before.conditions, after.conditions)
  }

  /** The conditions as they are written. */
  method ReportAll(ghost app: App, ghost latest: App, ghost ready: Verdict, ghost cluster: Reconciler, ghost live: Live,
                   ghost apis: Apis, generation: int, now: int, before: seq<Cond>, changes: seq<Change>)
    returns (after: seq<Cond>)
    requires UniqueKinds(before)
    requires |changes| == |CONDITIONS| && forall i :: 0 <= i < |changes| ==>
               changes[i].kind == CONDITIONS[i] &&
               Fits(changes[i], app, latest, ready, cluster.objs, live, apis, !cluster.down)
    ensures Reports(app, latest, ready.status == Yes, cluster.objs, live, apis, generation, !cluster.down, before,
                    after)
  {
    ChangesReport(app, latest, ready, cluster.objs, live, apis, generation, now, !cluster.down, before, changes);
    after := ApplyAll(before, changes, generation, now);
  }

  /** The Deployment is read and weighed. */
  method ReadPhase(app: App, err: Option<string>, cluster: Reconciler, live: Live)
    returns (ok: bool, phase: Phase, lastError: string, ready: Verdict, readyReplicas: int)
    modifies cluster`answers, cluster`down
    ensures Spent(old(cluster.answers), old(cluster.down), cluster.answers, cluster.down)
    ensures cluster.down <==> old(cluster.down) || !ok
    ensures ok ==> readyReplicas == ReadyReplicas(app, cluster.objs, live)
    ensures ok ==>
              (phase == Available <==> Up(app, err, Key(Deployment, app.ns, app.name) in cluster.objs, readyReplicas))
    ensures ok ==> (ready.status == Yes <==> phase == Available)
    ensures ok ==> (phase == Paused <==> app.spec.paused) && (phase == Failed <==> !app.spec.paused && err.Some?)
    ensures ok ==> lastError == if phase == Failed then err.value else ""
  {
    phase, lastError, ready, readyReplicas := Progressing, "", Verdict(No, ""), 0;
    var deployment := cluster.Fetch(Key(Deployment, app.ns, app.name));
    ok := !deployment.Down?;
    if deployment.Present? {
      readyReplicas := live.readyReplicas;
    }
    if ok {
      phase, lastError, ready := Assess(app, err, deployment.Present?, readyReplicas);
    }
  }

  /** updateStatusOnce. The status is written as a whole or left alone; the update reports an error if it was not
      written, and also if it was but the reply is lost. The ghost results say whether it was written and whether all
      reads before were answered. */
  method UpdateStatusOnce(app: App, err: Option<string>, record: Record, cluster: Reconciler, live: Live, apis: Apis,
                          now: int)
    returns (ok: bool, ghost written: bool, ghost allRead: bool)
    requires UniqueKinds(record.status.conditions)
    modifies record`status, cluster`answers, cluster`down
    ensures Spent(old(cluster.answers), old(cluster.down), cluster.answers, cluster.down)
    ensures if ok then written else !record.present || cluster.down
    ensures written && !cluster.down ==> allRead
    ensures if written then Tells(app, err, record.app, record.generation, cluster.objs, live, apis, allRead,
                                  old(record.status), record.status)
            else record.status == old(record.status)
  {
    written, allRead := false, false;
    var desired := DesiredReplicas(app);
    var phase, lastError, ready, readyReplicas, done;
    ok, phase, lastError, ready, readyReplicas := ReadPhase(app, err, cluster, live);
    if !ok {
      return false, written, allRead;
    }
    ok, done := cluster.Call();
    if !ok || !record.present {
      return false, written, allRead;
    }
    var changes := Collect(app, record.app, ready, cluster, live, apis);
    var conditions := ReportAll(app, record.app, ready, cluster, live, apis, record.generation, now,
                                record.status.conditions, changes);
    allRead := !cluster.down;
    ok, done := cluster.Call();
    if done {
      record.status := StatusBody(phase, desired, readyReplicas, record.generation, lastError, conditions);
      written := true;
    }
  }

  // ----- Reconcile -----

  /** How a reconcile ends: an error is retried with backoff, Again at once, After later. */
  datatype Finish = Errored | Again | After(seconds: int) | Done

  /** How far a reconcile of a live app came: it never got to reconcileAll; reconcileAll ended with an
      error, because a call went unanswered (cut) or an operation was refused; or it went through. */
  datatype Progress = Idle | Broke(cut: bool) | Through

  /** The app is what its spec asks for: its Deployment is up, and ESO is done with its objects. */
  ghost predicate Settled(app: App, disc: Discovery, now: int, s: Objs, live: Live) {
    Up(app, None, Key(Deployment, app.ns, app.name) in s, ReadyReplicas(app, s, live)) &&
    !AnyPending(RetryOps(app, disc, now), s)
  }

  /** Where the children end: untouched, where the whole program leads, or where the calls made so far do.
      A run none of whose calls went unanswered breaks only where the program is refused an operation. */
  ghost predicate Leads(app: App, disc: Discovery, now: int, s: Objs, t: Objs, progress: Progress) {
    match progress
    case Idle => t == s
    case Through => RunAll(app, Program(app, disc, now), s) == Outcome(t, true)
    case Broke(cut) =>
      (exists picks :: Steps(app, Recovery.Start(app, disc, now, s), picks).objs == t) &&
      (cut || RunAll(app, Program(app, disc, now), s) == Outcome(t, false))
  }

  lemma {:induction false} LeadsFrom(app: App, disc: Discovery, now: int, s: Objs, t: Objs, pending: bool, ok: bool,
                                     down: bool)
    requires Went(app, Program(app, disc, now), s, false, t, pending, ok, down)
    ensures Leads(app, disc, now, s, t, if ok then Through else Broke(down))
  {
    var start := Recovery.Start(app, disc, now, s);
    WentMeans(app, start.ops, s, false, t, pending, ok, down);
  }

  /** The error that the status update is told of. */
  function ErrorOf(progress: Progress, message: string): Option<string> {
    if progress.Broke? then Some(message) else None
  }

  /** What became of the status update: whether it was written, and whether all reads for it were answered. */
  datatype Report = Report(written: bool, allRead: bool)

  /** The body of Reconcile for a live app: reconcileAll, then always the status update. */
  method ReconcileAndReport(record: Record, cluster: Reconciler, disc: Discovery, apis: Apis, live: Live, now: int,
                            message: string)
    returns (ok: bool, pending: bool, stored: bool, ghost progress: Progress, ghost report: Report)
    requires UniqueKinds(record.status.conditions) && record.present
    modifies record`status, cluster
    ensures progress != Idle && (ok <==> progress == Through) && (record.app.spec.paused ==> ok)
    ensures pending <==> ok && !record.app.spec.paused && AnyPending(RetryOps(record.app, disc, now), cluster.objs)
    ensures Leads(record.app, disc, now, old(cluster.objs), cluster.objs, progress)
    ensures if report.written
            then Tells(record.app, ErrorOf(progress, message), record.app, record.generation, cluster.objs, live, apis,
                       report.allRead, old(record.status), record.status)
            else record.status == old(record.status)
    ensures if stored then report.written else cluster.down
    ensures Unanswered(cluster.answers) <= Unanswered(old(cluster.answers))
    ensures cluster.down || progress == Broke(true) ==> Unanswered(cluster.answers) < Unanswered(old(cluster.answers))
  {
    ghost var s := cluster.objs;
    cluster.down := false;
    ok, pending := cluster.ReconcileAll(record.app, disc, now);
    progress := if ok then Through else Broke(cluster.down);
    LeadsFrom(record.app, disc, now, s, cluster.objs, pending, ok, cluster.down);
    cluster.down := false;
    ghost var written, allRead;
    stored, written, allRead :=
      UpdateStatusOnce(record.app, if ok then None else Some(message), record, cluster, live, apis, now);
    report := Report(written, allRead);
  }

  /** handleDeletion. */
  method HandleDeletion(record: Record, cluster: Reconciler) returns (r: Finish)
    modifies record`finalizer, cluster`answers, cluster`down
    ensures Spent(old(cluster.answers), old(cluster.down), cluster.answers, cluster.down)
    ensures if r == Done then !record.finalizer else r == Errored && cluster.down
  {
    var answered, done := cluster.Call();
    if done {
      record.finalizer := false;
    }
    r := if answered then Done else Errored;
  }

  /** How a reconcile without error ends. The last read counts when it is answered. */
  method Requeue(record: Record, cluster: Reconciler, pending: bool) returns (r: Finish, ghost last: bool)
    modifies cluster`answers, cluster`down
    ensures Spent(old(cluster.answers), old(cluster.down), cluster.answers, cluster.down)
    ensures r == if record.app.spec.paused || (!pending && last && record.status.phase == Available)
                 then Done else After(30)
  {
    last := true;
    if record.app.spec.paused {
      return Done, last;
    }
    if pending {
      return After(RETRY_SECONDS), last;
    }
    var answered, _ := cluster.Call();
    last := answered;
    if answered && record.status.phase == Available {
      return Done, last;
    }
    return After(RETRY_SECONDS), last;
  }

  /** Reconcile and handleDeletion, under any pattern of unanswered calls. message is the text of a
      reconcile error. Nobody else edits the object meanwhile, so the read at the end sees what the status
      update wrote. The ghost results say how far reconcileAll came, what became of the status update, and
      whether it and the read at the end were answered. */
  method Reconcile(record: Record, cluster: Reconciler, disc: Discovery, apis: Apis, live: Live, now: int,
                   message: string)
    returns (r: Finish, ghost progress: Progress, ghost report: Report, ghost stored: bool, ghost last: bool)
    requires UniqueKinds(record.status.conditions)
    modifies record, cluster
    ensures record.app == old(record.app) && record.generation == old(record.generation)
    ensures record.present == old(record.present) && record.deleting == old(record.deleting)
    ensures UniqueKinds(record.status.conditions)
    // Nothing is done to the children without the finalizer, nor for an app that is being deleted.
    ensures !(old(record.present) && old(record.finalizer) && !old(record.deleting)) ==> progress == Idle
    ensures old(record.present) && !old(record.finalizer) && r != Errored ==> r == Again && record.finalizer
    ensures old(record.present) && old(record.finalizer) && old(record.deleting) && r != Errored ==>
              r == Done && !record.finalizer
    ensures old(record.present) && old(record.finalizer) && !old(record.deleting) && progress == Idle ==> r == Errored
    // Otherwise the children end where the calls of the program lead.
    ensures Leads(record.app, disc, now, old(cluster.objs), cluster.objs, progress)
    // The status is written as a whole or not at all, whatever happened to the children before.
    ensures if report.written
            then progress != Idle &&
                 Tells(record.app, ErrorOf(progress, message), record.app, record.generation, cluster.objs, live, apis,
                       report.allRead, old(record.status), record.status)
            else record.status == old(record.status)
    ensures stored ==> report.written
    // A reconcile that broke is retried, and a status written after it says so.
    ensures progress.Broke? ==> r == Errored
    ensures progress.Broke? && report.written ==> record.status.phase == Failed && record.status.lastError == message
    ensures progress.Broke? && report.written ==> Find(record.status.conditions, Ready).value.verdict.status != Yes
    // Progress: an app that went through is left alone exactly when it is paused, or settled and the last
    // read was answered.
    ensures progress == Through ==>
              r == if !stored then Errored
                   else if record.app.spec.paused || (last && Settled(record.app, disc, now, cluster.objs, live))
                        then Done
                   else After(30)
    // Every error but a refusal uses up an unanswered call.
    ensures Unanswered(cluster.answers) <= Unanswered(old(cluster.answers))
    ensures r == Errored && progress != Broke(false) ==> Unanswered(cluster.answers) < Unanswered(old(cluster.answers))
  {
    progress, report, stored, last := Idle, Report(false, false), false, false;
    cluster.down := false;
    var answered, done := cluster.Call();
    if !answered {
      return Errored, progress, report, stored, last;
    }
    if !record.present {
      return Done, progress, report, stored, last;
    }
    if !record.finalizer {
      answered, done := cluster.Call();
      if done {
        record.finalizer := true;
      }
      return if answered then Again else Errored, progress, report, stored, last;
    }
    if record.deleting {
      r := HandleDeletion(record, cluster);
      return r, progress, report, stored, last;
    }
    var ok, pending, written;
    ok, pending, written, progress, report := ReconcileAndReport(record, cluster, disc, apis, live, now, message);
    stored := written;
    if !ok {
      return Errored, progress, report, stored, last;
    }
    if !written {
      return Errored, progress, report, stored, last;
    }
    r, last := Requeue(record, cluster, pending);
  }

  /** Retries end: while no name that the app claims is controlled by another owner, no reconcile is refused an
      operation and none makes a name controlled by another, so every error uses up an unanswered call. */
  lemma {:induction false} ErrorsAreCuts(app: App, disc: Discovery, now: int, s: Objs, t: Objs, progress: Progress)
    requires Leads(app, disc, now, s, t, progress)
    requires forall k :: Recovery.Claimed(app, k) ==> !Blocked(app, Get(s, k))
    ensures progress != Broke(false)
    ensures forall k :: Recovery.Claimed(app, k) ==> !Blocked(app, Get(t, k))
  {
    var start := Recovery.Start(app, disc, now, s);
    Recovery.ProgramOrderly(app, disc, now);
    Recovery.RunSucceeds(app, start.ops, s);
    var picks: seq<string> := [];
    if progress == Through {
      assert start.ops + [] == start.ops;
      ReachesRefl(app, start);
      var p := RunReaches(app, start, s, start.ops, [], false);
      picks :| Steps(app, start, picks) == Run(t, [], false, p);
    } else if progress.Broke? {
      picks :| Steps(app, start, picks).objs == t;
    }
    Recovery.StepsNeverBlock(app, start, picks);
  }

  /** The two resource conditions cannot lag behind a successful reconcile: every object they count is
      there, so with the kinds served they are true. */
  lemma {:induction false} CreatedResourcesAreReported(app: App, disc: Discovery, now: int, s: Objs, live: Live,
                                                       apis: Apis)
    requires !app.spec.paused && RunAll(app, Program(app, disc, now), s).ok
    ensures disc.externalSecrets && apis.externalSecrets == Served ==>
              Holds(ExternalSecretsReady, app, app, RunAll(app, Program(app, disc, now), s).objs, live, apis)
    ensures disc.middlewares.Some? && apis.middlewares == Served ==>
              Holds(MiddlewaresReady, app, app, RunAll(app, Program(app, disc, now), s).objs, live, apis)
  {
    var t := RunAll(app, Program(app, disc, now), s).objs;
    if disc.externalSecrets {
      forall es | es in app.spec.externalSecrets
        ensures ExternalKey(app, es) in t
      {
        Watches.AfterRun(app, disc, now, s, es);
      }
    }
    if disc.middlewares.Some? {
      forall k | k in WantedHops(app, app.spec.domains)
        ensures k in t
      {
        WantedHopsMean(app, app.spec.domains, k);
        var d, kind :| d in app.spec.domains && Wants(d, kind) && k == HopKey(app, d, kind);
        Routes.WantedMiddlewareExists(app, disc, now, s, d, kind);
      }
    }
  }
}
