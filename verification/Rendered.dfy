/**
 What is in the cluster after a successful reconcile, written out on the fields of the spec and on the names and
 constants of the source, without the functions that render the objects.
 */
module Rendered {
  import opened Common
  import opened Names
  import opened Spec
  import opened Cluster
  import opened Desired
  import opened Convergence
  import opened Delivery
  import opened Recovery
  import Contention
  import Disk
  import Routes
  import Stores

  /** The controller reference that names the app. */
  function Controller(app: App): Owner {
    Owner("appdefinition.abexamir.me", "AppDefinition", app.name, app.uid)
  }

  /** Labelled and owned as everything that the app keeps for itself. */
  predicate Belongs(app: App, o: Obj) {
    o.labels == map["app.kubernetes.io/name" := app.name, "app.kubernetes.io/instance" := app.name,
                    "app.kubernetes.io/managed-by" := "app-operator"] &&
    o.owner == Some(Controller(app))
  }

  /** What others put on an object that is updated in place stays. */
  predicate KeepsOthers(cur: Slot, o: Obj) {
    if cur.None? then o.annotations == map[] && o.nudge == None && o.ready == None && o.rest == ""
    else o.annotations == cur.value.annotations && o.nudge == cur.value.nudge && o.ready == cur.value.ready &&
         o.rest == cur.value.rest
  }

  /** The last write on an object of a pruned kind is what is left of it. */
  lemma {:induction false} LastDecides(app: App, disc: Discovery, now: int, s: Objs, k: Key, op: Op)
    requires !app.spec.paused && k.kind in {ConfigMap, Secret, Middleware, Ingress} && k.ns == app.ns
    requires Served(disc, k.kind) && RunAll(app, Program(app, disc, now), s).ok
    requires LastOn(WritesOf(app, disc, k.kind), k) == Some(op)
    ensures Touch(app, op, k, Get(s, k), None) == Left(Get(RunAll(app, Program(app, disc, now), s).objs, k))
  {
    FinalSlot(app, disc, now, s, k);
    PrunedSegment(app, disc, now, k.kind);
    FoldSegment(app, StepOps(app, disc, now, StepOf(k.kind)), k.kind, k, Get(s, k));
  }

  // ----- ConfigMaps and Secrets -----

  lemma {:induction false} MergedData(app: App, kind: Kind, cur: Slot, data: map<string, string>)
    requires kind in {ConfigMap, Secret}
    ensures var o := Merge(app, kind, cur, Mine(app, Data(data)));
            Belongs(app, o) && KeepsOthers(cur, o) && o.body == Data(data)
  {
  }

  /** The ConfigMap of the last entry of a name. */
  lemma {:induction false} ConfigMapRendered(app: App, disc: Discovery, now: int, s: Objs, i: nat, k: Key)
    requires !app.spec.paused && RunAll(app, Program(app, disc, now), s).ok
    requires i < |app.spec.configMaps| && k == Key(ConfigMap, app.ns, app.name + "-" + app.spec.configMaps[i].name)
    requires forall j :: i < j < |app.spec.configMaps| ==> app.spec.configMaps[j].name != app.spec.configMaps[i].name
    ensures var t := RunAll(app, Program(app, disc, now), s).objs;
            k in t && Belongs(app, t[k]) && KeepsOthers(Get(s, k), t[k]) &&
            t[k].body == Data(app.spec.configMaps[i].data)
  {
    ConfigMapLast(app, i);
    LastDecides(app, disc, now, s, k, ConfigMapWrite(app, app.spec.configMaps[i]));
    MergedData(app, ConfigMap, Get(s, k), app.spec.configMaps[i].data);
  }

  /** The Secret of the last inline entry of a name; one without data is empty. */
  lemma {:induction false} SecretRendered(app: App, disc: Discovery, now: int, s: Objs, i: nat, k: Key)
    requires !app.spec.paused && RunAll(app, Program(app, disc, now), s).ok
    requires i < |app.spec.secrets| && app.spec.secrets[i].secretRef == ""
    requires k == Key(Secret, app.ns, app.name + "-" + app.spec.secrets[i].name)
    requires forall j :: i < j < |app.spec.secrets| && app.spec.secrets[j].secretRef == "" ==>
               app.spec.secrets[j].name != app.spec.secrets[i].name
    ensures var t := RunAll(app, Program(app, disc, now), s).objs;
            k in t && Belongs(app, t[k]) && KeepsOthers(Get(s, k), t[k]) &&
            t[k].body == Data(if app.spec.secrets[i].data.Some? then app.spec.secrets[i].data.value else map[])
  {
    SecretLast(app, i);
    LastDecides(app, disc, now, s, k, SecretWrite(app, app.spec.secrets[i]));
    MergedData(app, Secret, Get(s, k), InlineData(app.spec.secrets[i]));
  }

  // ----- Stores -----

  /** The ServiceAccount that a store spec declares, when there was none. */
  lemma {:induction false} AccountRendered(app: App, disc: Discovery, now: int, s: Objs, store: SecretStoreSpec, k: Key)
    requires !app.spec.paused && RunAll(app, Program(app, disc, now), s).ok && app.spec.secretStore == Some(store)
    requires k == Key(ServiceAccount, app.ns, if store.scope == "App" then app.name else app.ns) && k !in s
    ensures var t := RunAll(app, Program(app, disc, now), s).objs;
            k in t && t[k].labels == map[] && t[k].annotations == map[] &&
            t[k].owner == (if store.scope == "App" then Some(Controller(app)) else None)
  {
    Stores.StoreDelivered(app, disc, now, s, AccountOp(app, store));
  }

  /** The SecretStore that a spec declares, when there was none. */
  lemma {:induction false} StoreRendered(app: App, disc: Discovery, now: int, s: Objs, store: SecretStoreSpec, k: Key)
    requires !app.spec.paused && RunAll(app, Program(app, disc, now), s).ok && app.spec.secretStore == Some(store)
    requires disc.secretStores && k == Key(SecretStore, app.ns, store.name) && k !in s
    ensures var t := RunAll(app, Program(app, disc, now), s).objs;
            var account := if store.scope == "App" then app.name else app.ns;
            k in t && t[k].labels == map[] && t[k].annotations == map[] && t[k].body.Vault? &&
            t[k].owner == (if store.scope == "App" then Some(Controller(app)) else None) &&
            t[k].body.server == store.vault.server &&
            t[k].body.path == (if store.vault.path != "" then store.vault.path else "secret") &&
            t[k].body.version == (if store.vault.version != "" then store.vault.version else "v2") &&
            t[k].body.mountPath ==
              (if store.vault.authMountPath != "" then store.vault.authMountPath else "kubernetes") &&
            t[k].body.role == (if store.vault.role != "" then store.vault.role else app.ns + "-" + account) &&
            t[k].body.account == account
  {
    Stores.StoreDelivered(app, disc, now, s, StoreOp(app, store));
  }

  // ----- ExternalSecrets -----

  lemma {:induction false} ExternalDecides(app: App, disc: Discovery, now: int, s: Objs, k: Key, op: Op)
    requires !app.spec.paused && disc.externalSecrets && k.kind == ExternalSecret && k.ns == app.ns
    requires RunAll(app, Program(app, disc, now), s).ok && op.Replace?
    requires LastOn(ExternalWrites(app, app.spec.externalSecrets), k) == Some(op)
    ensures SameButNudge(Get(RunAll(app, Program(app, disc, now), s).objs, k), Some(Overwrite(Get(s, k), op.want)))
  {
    FinalSlot(app, disc, now, s, k);
    PrunedSegment(app, disc, now, ExternalSecret);
    FoldSegment(app, StepOps(app, disc, now, StepOf(ExternalSecret)), ExternalSecret, k, Get(s, k));
    LastOnShape(ExternalWrites(app, app.spec.externalSecrets), k);
  }

  /** The ExternalSecret of the last entry of a name: replaced whole, its status aside. */
  lemma {:induction false} ExternalSecretRendered(app: App, disc: Discovery, now: int, s: Objs, i: nat, k: Key)
    requires !app.spec.paused && disc.externalSecrets && RunAll(app, Program(app, disc, now), s).ok
    requires i < |app.spec.externalSecrets|
    requires k == Key(ExternalSecret, app.ns, app.name + "-" + app.spec.externalSecrets[i].name)
    requires forall j :: i < j < |app.spec.externalSecrets| ==>
               app.spec.externalSecrets[j].name != app.spec.externalSecrets[i].name
    ensures var t, es := RunAll(app, Program(app, disc, now), s).objs, app.spec.externalSecrets[i];
            k in t && Belongs(app, t[k]) && t[k].annotations == map[] && t[k].rest == "" &&
            t[k].ready == (if k in s then s[k].ready else None) && t[k].body.External? &&
            t[k].body.refreshInterval == (if es.refreshInterval != "" then es.refreshInterval else "1m") &&
            t[k].body.store == es.store &&
            t[k].body.storeKind == (if es.storeKind != "" then es.storeKind else "ClusterSecretStore") &&
            t[k].body.target == app.name + "-" + es.name &&
            t[k].body.targetLabels ==
              map["app.kubernetes.io/name" := app.name, "app.kubernetes.io/instance" := app.name,
                  "app.kubernetes.io/managed-by" := "app-operator"] &&
            t[k].body.remote == es.data && t[k].body.extracts == es.dataFrom
  {
    ExternalLast(app, i);
    ExternalDecides(app, disc, now, s, k, ExternalWrite(app, app.spec.externalSecrets[i]));
  }

  // ----- Service -----

  /** A port of some container, as the Service shows it. */
  ghost predicate ExposedAs(app: App, x: ServicePort) {
    exists c, p :: c in app.spec.containers && p in c.ports && p.expose &&
                   x == ServicePort(p.name, p.servicePort, p.containerPort,
                                    if p.protocol != "" then p.protocol else "TCP")
  }

  lemma {:induction false} ExposedMean(ports: seq<PortSpec>, x: ServicePort)
    ensures x in Exposed(ports) <==>
              exists p :: p in ports && p.expose &&
                x == ServicePort(p.name, p.servicePort, p.containerPort, if p.protocol != "" then p.protocol else "TCP")
  {
    if ports != [] {
      ExposedMean(ports[..|ports| - 1], x);
      assert ports == ports[..|ports| - 1] + [ports[|ports| - 1]];
    }
  }

  lemma {:induction false} AllPortsMean(cs: seq<ContainerSpec>, p: PortSpec)
    ensures p in AllPorts(cs) <==> exists c :: c in cs && p in c.ports
  {
    if cs != [] {
      AllPortsMean(cs[..|cs| - 1], p);
      assert cs == cs[..|cs| - 1] + [cs[|cs| - 1]];
    }
  }

  lemma {:induction false} ServicePortsMean(app: App, x: ServicePort)
    ensures x in ServicePorts(app) <==> ExposedAs(app, x)
  {
    ExposedMean(AllPorts(app.spec.containers), x);
    forall p
      ensures p in AllPorts(app.spec.containers) <==> exists c :: c in app.spec.containers && p in c.ports
    {
      AllPortsMean(app.spec.containers, p);
    }
  }

  lemma {:induction false} ServiceFold(app: App, k: Key, cur: Slot)
    requires k == Key(Service, app.ns, app.name) && ServicePorts(app) != [] && Fold(app, ServiceOps(app), k, cur).Left?
    ensures var slot := Fold(app, ServiceOps(app), k, cur).slot;
            slot.Some? && Belongs(app, slot.value) && KeepsOthers(cur, slot.value) &&
            slot.value.body == Ports(if app.spec.serviceType != "" then app.spec.serviceType else "ClusterIP",
                                     map["app.kubernetes.io/name" := app.name], ServicePorts(app))
  {
    assert ServiceOps(app)[1..] == [];
  }

  /** The Service: there iff some port is exposed, and then with exactly the exposed ports. */
  lemma {:induction false} ServiceRendered(app: App, disc: Discovery, now: int, s: Objs, k: Key, x: ServicePort)
    requires !app.spec.paused && RunAll(app, Program(app, disc, now), s).ok && k == Key(Service, app.ns, app.name)
    ensures var t := RunAll(app, Program(app, disc, now), s).objs;
            (k in t <==> exists c, p :: c in app.spec.containers && p in c.ports && p.expose) &&
            (k in t ==> Belongs(app, t[k]) && KeepsOthers(Get(s, k), t[k]) && t[k].body.Ports? &&
                        t[k].body.serviceType ==
                          (if app.spec.serviceType != "" then app.spec.serviceType else "ClusterIP") &&
                        t[k].body.podSelector == map["app.kubernetes.io/name" := app.name] &&
                        (x in t[k].body.ports <==> ExposedAs(app, x)))
  {
    var ports := ServicePorts(app);
    ServicePresentExactly(app, disc, now, s);
    ServiceSlot(app, disc, now, s, k);
    ServicePortsMean(app, x);
    if ports != [] {
      ServicePortsMean(app, ports[0]);
      assert ports[0] in ports;
      ServiceFold(app, k, Get(s, k));
    }
    if c, p :| c in app.spec.containers && p in c.ports && p.expose {
      var y := ServicePort(p.name, p.servicePort, p.containerPort, if p.protocol != "" then p.protocol else "TCP");
      assert ExposedAs(app, y);
      ServicePortsMean(app, y);
    }
  }

  // ----- The claim -----

  /** The claim of an app whose disk is not protected, or that has one already. */
  lemma {:induction false} ClaimRendered(app: App, disc: Discovery, now: int, s: Objs, disk: DiskConfig, k: Key)
    requires !app.spec.paused && RunAll(app, Program(app, disc, now), s).ok && app.spec.disk == Some(disk)
    requires k == Key(Pvc, app.ns, app.name + "-disk") && (k in s || !disk.protect) && (k in s ==> s[k].body.Claim?)
    ensures var t := RunAll(app, Program(app, disc, now), s).objs;
            k in t && Belongs(app, t[k]) && t[k].body.Claim? &&
            if k in s
            then t[k].annotations == s[k].annotations + disk.annotations && t[k].rest == s[k].rest &&
                 t[k].body == s[k].body.(size := if s[k].body.size < disk.sizeInGi * 1_073_741_824
                                                 then disk.sizeInGi * 1_073_741_824 else s[k].body.size)
            else t[k].annotations == disk.annotations &&
                 t[k].body == Claim(disk.sizeInGi * 1_073_741_824, ["ReadWriteOnce"],
                                    if disk.storageClassName != "" then Some(disk.storageClassName) else None)
  {
    FinalSlot(app, disc, now, s, k);
    assert StepOps(app, disc, now, StepOf(k.kind)) == PvcOps(app);
    Disk.ClaimWritten(app, Get(s, k));
    MergedClaim(app, Get(s, k), disk);
  }

  lemma {:induction false} MergedClaim(app: App, cur: Slot, disk: DiskConfig)
    requires cur.Some? ==> cur.value.body.Claim?
    ensures var o := Merge(app, Pvc, cur, PvcWant(app, disk));
            Belongs(app, o) && o.body.Claim? &&
            if cur.Some?
            then o.annotations == cur.value.annotations + disk.annotations && o.rest == cur.value.rest &&
                 o.body == cur.value.body.(size := if cur.value.body.size < disk.sizeInGi * 1_073_741_824
                                                   then disk.sizeInGi * 1_073_741_824 else cur.value.body.size)
            else o.annotations == disk.annotations &&
                 o.body == Claim(disk.sizeInGi * 1_073_741_824, ["ReadWriteOnce"],
                                 if disk.storageClassName != "" then Some(disk.storageClassName) else None)
  {
    assert map[] + disk.annotations == disk.annotations;
  }

  // ----- The autoscaler -----

  lemma {:induction false} HpaFold(app: App, k: Key, cur: Slot, auto: AutoscalingSpec)
    requires k == Key(Hpa, app.ns, app.name) && app.spec.autoscaling == Some(auto) && auto.enabled
    requires Fold(app, HpaOps(app), k, cur).Left?
    ensures var slot := Fold(app, HpaOps(app), k, cur).slot;
            slot.Some? && Belongs(app, slot.value) && KeepsOthers(cur, slot.value) &&
            slot.value.body == Scaler(app.name, auto.limits)
  {
    assert HpaOps(app)[1..] == [];
  }

  /** The autoscaler of an app that asks for one. */
  lemma {:induction false} HpaRendered(app: App, disc: Discovery, now: int, s: Objs, auto: AutoscalingSpec, k: Key)
    requires !app.spec.paused && RunAll(app, Program(app, disc, now), s).ok && k == Key(Hpa, app.ns, app.name)
    requires app.spec.autoscaling == Some(auto) && auto.enabled
    ensures var t := RunAll(app, Program(app, disc, now), s).objs;
            k in t && Belongs(app, t[k]) && KeepsOthers(Get(s, k), t[k]) && t[k].body == Scaler(app.name, auto.limits)
  {
    HpaSlot(app, disc, now, s, k);
    HpaFold(app, k, Get(s, k), auto);
  }

  // ----- Pausing and pruning -----

  /** A paused app is left alone altogether. */
  lemma {:induction false} PausedIsLeftAlone(app: App, disc: Discovery, now: int, s: Objs, picks: seq<string>)
    requires app.spec.paused
    ensures Steps(app, Run(s, Program(app, disc, now), false, false), picks).objs == s
    ensures RunAll(app, Program(app, disc, now), s) == Outcome(s, true)
  {
    StandsStill(app, Run(s, Program(app, disc, now), false, false), picks);
  }

  lemma {:induction false} StandsStill(app: App, r: Run, picks: seq<string>)
    requires r.ops == []
    ensures Steps(app, r, picks) == r
  {
    if picks != [] {
      StandsStill(app, r, picks[..|picks| - 1]);
    }
  }

  /** An object that the prune loops act on, spelled out. */
  predicate IsStale(app: App, cur: Slot) {
    cur.Some? && cur.value.owner.Some? && cur.value.owner.value.uid == app.uid &&
    (forall l :: l in map["app.kubernetes.io/name" := app.name, "app.kubernetes.io/instance" := app.name,
                          "app.kubernetes.io/managed-by" := "app-operator"] ==>
       l in cur.value.labels &&
       cur.value.labels[l] == map["app.kubernetes.io/name" := app.name, "app.kubernetes.io/instance" := app.name,
                                  "app.kubernetes.io/managed-by" := "app-operator"][l])
  }

  /** What becomes of objects of the pruned kinds that the spec does not name: those with the three labels of the
      app and its uid as controller are deleted, all others stay as they were. */
  lemma {:induction false} PrunedExactly(app: App, disc: Discovery, now: int, s: Objs, k: Key)
    requires !app.spec.paused && k.kind in {ConfigMap, Secret, Middleware, Ingress} && k.ns == app.ns
    requires Served(disc, k.kind) && RunAll(app, Program(app, disc, now), s).ok
    requires k.name !in WriteNames(WritesOf(app, disc, k.kind))
    ensures Get(RunAll(app, Program(app, disc, now), s).objs, k) == if IsStale(app, Get(s, k)) then None else Get(s, k)
  {
    FinalSlot(app, disc, now, s, k);
    PrunedSegment(app, disc, now, k.kind);
    FoldSegment(app, StepOps(app, disc, now, StepOf(k.kind)), k.kind, k, Get(s, k));
    StaleIsManaged(app, Get(s, k));
  }

  lemma {:induction false} StaleIsManaged(app: App, cur: Slot)
    ensures IsStale(app, cur) <==> Managed(app, cur)
  {
  }

  // ----- When a reconcile succeeds -----

  /** The names that a spec claims, spelled out. */
  ghost predicate ClaimsName(app: App, kind: Kind, n: string) {
    match kind
    case ConfigMap => exists cm :: cm in app.spec.configMaps && n == app.name + "-" + cm.name
    case Secret => exists sec :: sec in app.spec.secrets && sec.secretRef == "" && n == app.name + "-" + sec.name
    case Deployment => n == app.name
    case Service => n == app.name && exists c, p :: c in app.spec.containers && p in c.ports && p.expose
    case Pvc => n == app.name + "-disk" && app.spec.disk.Some?
    case Ingress => exists d :: d in app.spec.domains && n == DomainIngressName(app.name, d.name, d.path)
    case Hpa => n == app.name && app.spec.autoscaling.Some? && app.spec.autoscaling.value.enabled
    case _ => false
  }

  lemma {:induction false} ConfigMapClaims(app: App, n: string)
    ensures n in WriteNames(ConfigMapWrites(app, app.spec.configMaps)) <==> ClaimsName(app, ConfigMap, n)
  {
    var ops := ConfigMapWrites(app, app.spec.configMaps);
    WriteNamesMean(ops, n);
    ConfigMapsWritten(app, app.spec.configMaps);
    forall op | op in ops
      ensures exists cm :: cm in app.spec.configMaps && op == ConfigMapWrite(app, cm)
    {
    }
    if ClaimsName(app, ConfigMap, n) {
      var cm :| cm in app.spec.configMaps && n == app.name + "-" + cm.name;
      assert ConfigMapWrite(app, cm) in ops;
    }
  }

  lemma {:induction false} SecretClaims(app: App, n: string)
    ensures n in WriteNames(SecretWrites(app, app.spec.secrets)) <==> ClaimsName(app, Secret, n)
  {
    var ops := SecretWrites(app, app.spec.secrets);
    WriteNamesMean(ops, n);
    SecretsWritten(app, app.spec.secrets);
    if ClaimsName(app, Secret, n) {
      var sec :| sec in app.spec.secrets && sec.secretRef == "" && n == app.name + "-" + sec.name;
      assert SecretWrite(app, sec) in ops;
    }
  }

  lemma {:induction false} IngressClaims(app: App, n: string)
    ensures n in WriteNames(IngressWrites(app, app.spec.domains)) <==> ClaimsName(app, Ingress, n)
  {
    var ops, ds := IngressWrites(app, app.spec.domains), app.spec.domains;
    WriteNamesMean(ops, n);
    if op :| op in ops && (op.Apply? || op.Replace?) && op.key.name == n {
      var j := Routes.IngressWriteAt(app, op);
      assert ds[j] in ds;
    }
    if ClaimsName(app, Ingress, n) {
      var d :| d in ds && n == DomainIngressName(app.name, d.name, d.path);
      Contention.IngressWriteIn(app, ds, d);
    }
  }

  lemma {:induction false} SomeExposed(app: App)
    ensures ServicePorts(app) != [] <==> exists c, p :: c in app.spec.containers && p in c.ports && p.expose
  {
    var ports := ServicePorts(app);
    if ports != [] {
      ServicePortsMean(app, ports[0]);
      assert ports[0] in ports;
    }
    if c, p :| c in app.spec.containers && p in c.ports && p.expose {
      var y := ServicePort(p.name, p.servicePort, p.containerPort, if p.protocol != "" then p.protocol else "TCP");
      assert ExposedAs(app, y);
      ServicePortsMean(app, y);
    }
  }

  lemma {:induction false} ClaimedSpelled(app: App, k: Key)
    ensures Claimed(app, k) <==> k.ns == app.ns && ClaimsName(app, k.kind, k.name)
  {
    match k.kind
    case ConfigMap => ConfigMapClaims(app, k.name);
    case Secret => SecretClaims(app, k.name);
    case Ingress => IngressClaims(app, k.name);
    case Service => SomeExposed(app);
    case _ =>
  }

  /** A reconcile succeeds exactly when every object of a claimed name that has a controller is controlled by the
      AppDefinition of this name; the uid does not matter. */
  lemma {:induction false} SucceedsExactly(app: App, disc: Discovery, now: int, s: Objs)
    requires !app.spec.paused && forall k :: Sane(app, Get(s, k))
    ensures RunAll(app, Program(app, disc, now), s).ok <==>
              forall k :: k in s && k.ns == app.ns && ClaimsName(app, k.kind, k.name) && s[k].owner.Some? ==>
                s[k].owner.value.apiGroup == "appdefinition.abexamir.me" &&
                s[k].owner.value.kind == "AppDefinition" && s[k].owner.value.name == app.name
  {
    SucceedsIffUnblocked(app, disc, now, s);
    forall k
      ensures Claimed(app, k) <==> k.ns == app.ns && ClaimsName(app, k.kind, k.name)
    {
      ClaimedSpelled(app, k);
    }
  }
}
