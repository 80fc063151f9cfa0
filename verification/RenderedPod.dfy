/**
 The Deployment of a successful reconcile, written out on the fields of the spec:
 internal/controller/reconcile_deployment.go.
 */
module RenderedPod {
  import opened Common
  import opened Spec
  import opened Pod
  import opened ConfigHash
  import opened Cluster
  import opened Desired
  import opened Fixpoint
  import opened Rendered

  lemma {:induction false} MergedWorkload(app: App, cur: Slot, synced: Option<string>)
    ensures var o := Merge(app, Deployment, cur, Resolve(DeployOp(app).want, synced));
            Belongs(app, o) && KeepsOthers(cur, o) && o.body.Workload? &&
            o.body.replicas == (if app.spec.replicas.Some? then app.spec.replicas.value else 1) &&
            o.body.recreate == app.spec.disk.Some? &&
            o.body.selector == (if cur.Some? && cur.value.body.Workload? && cur.value.body.selector.Some?
                                then cur.value.body.selector else Some(map["app.kubernetes.io/name" := app.name])) &&
            o.body.template == Template(map["app.kubernetes.io/name" := app.name], ConfigStream(app.spec), synced,
                                        Volumes(app), InitContainers(app), MainContainers(app), app.spec.podRest)
  {
  }

  /** The Deployment is there with its template. */
  lemma {:induction false} TemplateDeployed(app: App, disc: Discovery, now: int, s: Objs, k: Key)
    requires !app.spec.paused && RunAll(app, Program(app, disc, now), s).ok && k == Key(Deployment, app.ns, app.name)
    ensures var t := RunAll(app, Program(app, disc, now), s).objs;
            k in t && t[k].body.Workload? && t[k].body.template.volumes == Volumes(app) &&
            t[k].body.template.initContainers == InitContainers(app) &&
            t[k].body.template.containers == MainContainers(app)
  {
    FinalDeployment(app, disc, now, s);
    MergedWorkload(app, Get(s, k), Synced(app, RunAll(app, Program(app, disc, now), s).objs));
  }

  /** Everything of the Deployment but its containers and volumes. An existing selector stays. */
  lemma {:induction false} DeploymentRendered(app: App, disc: Discovery, now: int, s: Objs, k: Key)
    requires !app.spec.paused && RunAll(app, Program(app, disc, now), s).ok && k == Key(Deployment, app.ns, app.name)
    ensures var t := RunAll(app, Program(app, disc, now), s).objs;
            k in t && Belongs(app, t[k]) && KeepsOthers(Get(s, k), t[k]) && t[k].body.Workload? &&
            t[k].body.replicas == (if app.spec.replicas.Some? then app.spec.replicas.value else 1) &&
            t[k].body.recreate == app.spec.disk.Some? &&
            t[k].body.selector ==
              (if k in s && s[k].body.Workload? && s[k].body.selector.Some? then s[k].body.selector
               else Some(map["app.kubernetes.io/name" := app.name])) &&
            t[k].body.template.labels == map["app.kubernetes.io/name" := app.name] &&
            t[k].body.template.configStream == ConfigStream(app.spec) &&
            t[k].body.template.externalStream == Synced(app, t) &&
            t[k].body.template.rest == app.spec.podRest
  {
    FinalDeployment(app, disc, now, s);
    MergedWorkload(app, Get(s, k), Synced(app, RunAll(app, Program(app, disc, now), s).objs));
  }

  /** A main or init container of the Deployment. */
  predicate RunsIn(c: Container, o: Obj) {
    o.body.Workload? && (c in o.body.template.containers || c in o.body.template.initContainers)
  }

  lemma {:induction false} AllAlike(app: App, c: Container)
    requires c in MainContainers(app) || c in InitContainers(app)
    ensures c.envFrom == EnvFrom(app) && c.mounts == Mounts(app)
  {
  }

  /** Secret x is injected into every main and init container, or none: it is exactly when some entry of secrets with
      asEnvVars refers to it, or is named so without a reference, or some external secret with asEnvVars is named so. */
  lemma {:induction false} EnvironmentRendered(app: App, disc: Discovery, now: int, s: Objs, k: Key, c: Container,
                                               x: string)
    requires !app.spec.paused && RunAll(app, Program(app, disc, now), s).ok && k == Key(Deployment, app.ns, app.name)
    requires k in RunAll(app, Program(app, disc, now), s).objs
    requires RunsIn(c, RunAll(app, Program(app, disc, now), s).objs[k])
    ensures x in c.envFrom <==>
              (exists sec :: sec in app.spec.secrets && sec.asEnvVars &&
                 x == if sec.secretRef != "" then sec.secretRef else app.name + "-" + sec.name) ||
              (exists es :: es in app.spec.externalSecrets && es.asEnvVars && x == app.name + "-" + es.name)
  {
    TemplateDeployed(app, disc, now, s, k);
    AllAlike(app, c);
    EnvExactly(app, x);
  }

  /** The volumes of the pod: the disk, every ConfigMap, and the mounted secrets and external secrets. */
  lemma {:induction false} VolumesRendered(app: App, disc: Discovery, now: int, s: Objs, k: Key, v: Volume)
    requires !app.spec.paused && RunAll(app, Program(app, disc, now), s).ok && k == Key(Deployment, app.ns, app.name)
    ensures var t := RunAll(app, Program(app, disc, now), s).objs;
            k in t && t[k].body.Workload? &&
            (v in t[k].body.template.volumes <==>
              (app.spec.disk.Some? && v == Volume("app-disk", ClaimSource(app.name + "-disk"))) ||
              (exists cm :: cm in app.spec.configMaps &&
                 v == Volume("cm-" + cm.name, ConfigMapSource(app.name + "-" + cm.name))) ||
              (exists sec :: sec in app.spec.secrets && sec.mountPath != "" &&
                 v == Volume("secret-" + sec.name,
                             SecretSource(if sec.secretRef != "" then sec.secretRef else app.name + "-" + sec.name))) ||
              (exists es :: es in app.spec.externalSecrets && es.mountPath != "" &&
                 v == Volume("es-" + es.name, SecretSource(app.name + "-" + es.name))))
  {
    TemplateDeployed(app, disc, now, s, k);
    VolumesExactly(app, v);
  }

  /** The mounts of every main and init container: each volume above at the path of its own entry, and the disk at
      each partition. */
  lemma {:induction false} MountsRendered(app: App, disc: Discovery, now: int, s: Objs, k: Key, c: Container, m: Mount)
    requires !app.spec.paused && RunAll(app, Program(app, disc, now), s).ok && k == Key(Deployment, app.ns, app.name)
    requires k in RunAll(app, Program(app, disc, now), s).objs
    requires RunsIn(c, RunAll(app, Program(app, disc, now), s).objs[k])
    ensures m in c.mounts <==>
              (app.spec.disk.Some? &&
               exists part :: part in app.spec.disk.value.partitions &&
                 m == Mount("app-disk", part.mountPath, part.subPath)) ||
              (exists cm :: cm in app.spec.configMaps && m == Mount("cm-" + cm.name, cm.mountPath, "")) ||
              (exists sec :: sec in app.spec.secrets && sec.mountPath != "" &&
                 m == Mount("secret-" + sec.name, sec.mountPath, "")) ||
              (exists es :: es in app.spec.externalSecrets && es.mountPath != "" &&
                 m == Mount("es-" + es.name, es.mountPath, ""))
  {
    TemplateDeployed(app, disc, now, s, k);
    AllAlike(app, c);
    MountsExactly(app, m);
  }

  /** The containers, one for each of the spec, in order: names, ports with TCP as the default protocol, and the hooks
      in the first alone and only if there is one. */
  lemma {:induction false} ContainersRendered(app: App, disc: Discovery, now: int, s: Objs, k: Key, i: nat)
    requires !app.spec.paused && RunAll(app, Program(app, disc, now), s).ok && k == Key(Deployment, app.ns, app.name)
    ensures var t := RunAll(app, Program(app, disc, now), s).objs;
            k in t && t[k].body.Workload? && |t[k].body.template.containers| == |app.spec.containers| &&
            (i < |app.spec.containers| ==>
               var c, d := t[k].body.template.containers[i], app.spec.containers[i];
               c.name == d.name && c.rest == d.rest && |c.ports| == |d.ports| &&
               (forall j :: 0 <= j < |d.ports| ==>
                 c.ports[j] == ContainerPort(d.ports[j].name, d.ports[j].containerPort,
                                             if d.ports[j].protocol != "" then d.ports[j].protocol else "TCP")) &&
               c.lifecycle ==
                 (if i == 0 && app.spec.lifecycle.Some? &&
                     (app.spec.lifecycle.value.postStart.Some? || app.spec.lifecycle.value.preStop.Some?)
                  then app.spec.lifecycle else None))
  {
    TemplateDeployed(app, disc, now, s, k);
  }

  /** The init containers: without ports and hooks. */
  lemma {:induction false} InitContainersRendered(app: App, disc: Discovery, now: int, s: Objs, k: Key, i: nat)
    requires !app.spec.paused && RunAll(app, Program(app, disc, now), s).ok && k == Key(Deployment, app.ns, app.name)
    ensures var t := RunAll(app, Program(app, disc, now), s).objs;
            k in t && t[k].body.Workload? && |t[k].body.template.initContainers| == |app.spec.initContainers| &&
            (i < |app.spec.initContainers| ==>
               var c, d := t[k].body.template.initContainers[i], app.spec.initContainers[i];
               c.name == d.name && c.rest == d.rest && c.ports == [] && c.lifecycle == None)
  {
    TemplateDeployed(app, disc, now, s, k);
  }
}
