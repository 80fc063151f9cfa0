/**
 The pod template: buildVolumes, buildVolumeMounts, buildContainer and buildInitContainers in
 internal/controller/reconcile_deployment.go. ConfigMaps, secrets and external secrets go through
 the same loop body there, so the model has it once, over entries.
 */
module Pod {
  import opened Common
  import opened Spec

  datatype VolumeSource = ClaimSource(claim: string) | ConfigMapSource(configMap: string) | SecretSource(secret: string)

  datatype Volume = Volume(name: string, source: VolumeSource)

  datatype Mount = Mount(name: string, mountPath: string, subPath: string)

  datatype ContainerPort = ContainerPort(name: string, containerPort: int, protocol: string)

  datatype Container = Container(name: string, ports: seq<ContainerPort>, envFrom: seq<string>, mounts: seq<Mount>,
                                 lifecycle: Option<Lifecycle>, rest: string)

  /** One list element as the template sees it; a mounted one becomes a volume and a mount. */
  datatype Entry = Entry(name: string, mounted: bool, mountPath: string, asEnvVars: bool, source: VolumeSource)

  /** The object name of an entry: the app name, a dash, the entry name. */
  function Child(app: string, name: string): string {
    app + "-" + name
  }

  function PvcName(app: string): string {
    app + "-disk"
  }

  /** resolvedSecretName. */
  function ResolvedSecretName(app: string, sec: SecretMount): string {
    if sec.secretRef != "" then sec.secretRef else Child(app, sec.name)
  }

  function CmEntries(app: App): seq<Entry> {
    var cms := app.spec.configMaps;
    seq(|cms|, i requires 0 <= i < |cms| =>
      Entry(cms[i].name, true, cms[i].mountPath, false, ConfigMapSource(Child(app.name, cms[i].name))))
  }

  function SecretEntries(app: App): seq<Entry> {
    var secs := app.spec.secrets;
    seq(|secs|, i requires 0 <= i < |secs| =>
      Entry(secs[i].name, secs[i].mountPath != "", secs[i].mountPath, secs[i].asEnvVars,
            SecretSource(ResolvedSecretName(app.name, secs[i]))))
  }

  function ExternalEntries(app: App): seq<Entry> {
    var ess := app.spec.externalSecrets;
    seq(|ess|, i requires 0 <= i < |ess| =>
      Entry(ess[i].name, ess[i].mountPath != "", ess[i].mountPath, ess[i].asEnvVars,
            SecretSource(Child(app.name, ess[i].name))))
  }

  // ----- The lists -----

  function VolumesOf(prefix: string, es: seq<Entry>): seq<Volume> {
    if es == [] then []
    else
      var r, last := VolumesOf(prefix, es[..|es| - 1]), es[|es| - 1];
      if last.mounted then r + [Volume(prefix + last.name, last.source)] else r
  }

  function MountsOf(prefix: string, es: seq<Entry>): seq<Mount> {
    if es == [] then []
    else
      var r, last := MountsOf(prefix, es[..|es| - 1]), es[|es| - 1];
      if last.mounted then r + [Mount(prefix + last.name, last.mountPath, "")] else r
  }

  function EnvOf(es: seq<Entry>): seq<string> {
    if es == [] then []
    else
      var r, last := EnvOf(es[..|es| - 1]), es[|es| - 1];
      if last.asEnvVars && last.source.SecretSource? then r + [last.source.secret] else r
  }

  function DiskVolumes(app: App): seq<Volume> {
    if app.spec.disk.Some? then [Volume("app-disk", ClaimSource(PvcName(app.name)))] else []
  }

  function DiskMounts(app: App): seq<Mount> {
    if app.spec.disk == None then []
    else
      var parts := app.spec.disk.value.partitions;
      seq(|parts|, i requires 0 <= i < |parts| => Mount("app-disk", parts[i].mountPath, parts[i].subPath))
  }

  function Volumes(app: App): seq<Volume> {
    DiskVolumes(app) + VolumesOf("cm-", CmEntries(app)) + VolumesOf("secret-", SecretEntries(app))
    + VolumesOf("es-", ExternalEntries(app))
  }

  function Mounts(app: App): seq<Mount> {
    DiskMounts(app) + MountsOf("cm-", CmEntries(app)) + MountsOf("secret-", SecretEntries(app))
    + MountsOf("es-", ExternalEntries(app))
  }

  function EnvFrom(app: App): seq<string> {
    EnvOf(SecretEntries(app)) + EnvOf(ExternalEntries(app))
  }

  /** Hooks reach the first container only, and only when there is one to run. */
  function HooksFor(app: App, primary: bool): Option<Lifecycle> {
    if primary && app.spec.lifecycle.Some? &&
       (app.spec.lifecycle.value.postStart.Some? || app.spec.lifecycle.value.preStop.Some?)
    then app.spec.lifecycle else None
  }

  /** TCP unless the spec says otherwise. */
  function PodPorts(ports: seq<PortSpec>): seq<ContainerPort> {
    seq(|ports|, i requires 0 <= i < |ports| =>
      ContainerPort(ports[i].name, ports[i].containerPort,
                    if ports[i].protocol == "" then "TCP" else ports[i].protocol))
  }

  function MainContainers(app: App): seq<Container> {
    var cs := app.spec.containers;
    seq(|cs|, i requires 0 <= i < |cs| =>
      Container(cs[i].name, PodPorts(cs[i].ports), EnvFrom(app), Mounts(app), HooksFor(app, i == 0), cs[i].rest))
  }

  function InitContainers(app: App): seq<Container> {
    var cs := app.spec.initContainers;
    seq(|cs|, i requires 0 <= i < |cs| => Container(cs[i].name, [], EnvFrom(app), Mounts(app), None, cs[i].rest))
  }

  // ----- The loops of the source -----

  method AppendVolumes(volumes: seq<Volume>, prefix: string, es: seq<Entry>) returns (r: seq<Volume>)
    ensures r == volumes + VolumesOf(prefix, es)
  {
    r := volumes;
    for i := 0 to |es|
      invariant r == volumes + VolumesOf(prefix, es[..i])
    {
      assert es[..i + 1][..i] == es[..i];
      if !es[i].mounted {
        continue;
      }
      r := r + [Volume(prefix + es[i].name, es[i].source)];
    }
    assert es[..|es|] == es;
  }

  method BuildVolumes(app: App) returns (volumes: seq<Volume>)
    ensures volumes == Volumes(app)
  {
    volumes := [];
    if app.spec.disk.Some? {
      volumes := volumes + [Volume("app-disk", ClaimSource(PvcName(app.name)))];
    }
    volumes := AppendVolumes(volumes, "cm-", CmEntries(app));
    volumes := AppendVolumes(volumes, "secret-", SecretEntries(app));
    volumes := AppendVolumes(volumes, "es-", ExternalEntries(app));
  }

  method AppendMounts(mounts: seq<Mount>, prefix: string, es: seq<Entry>) returns (r: seq<Mount>)
    ensures r == mounts + MountsOf(prefix, es)
  {
    r := mounts;
    for i := 0 to |es|
      invariant r == mounts + MountsOf(prefix, es[..i])
    {
      assert es[..i + 1][..i] == es[..i];
      if !es[i].mounted {
        continue;
      }
      r := r + [Mount(prefix + es[i].name, es[i].mountPath, "")];
    }
    assert es[..|es|] == es;
  }

  method BuildVolumeMounts(app: App) returns (mounts: seq<Mount>)
    ensures mounts == Mounts(app)
  {
    mounts := [];
    if app.spec.disk.Some? {
      var parts := app.spec.disk.value.partitions;
      for i := 0 to |parts|
        invariant mounts == DiskMounts(app)[..i]
      {
        mounts := mounts + [Mount("app-disk", parts[i].mountPath, parts[i].subPath)];
      }
    }
    mounts := AppendMounts(mounts, "cm-", CmEntries(app));
    mounts := AppendMounts(mounts, "secret-", SecretEntries(app));
    mounts := AppendMounts(mounts, "es-", ExternalEntries(app));
  }

  method AppendEnv(env: seq<string>, es: seq<Entry>) returns (r: seq<string>)
    ensures r == env + EnvOf(es)
  {
    r := env;
    for i := 0 to |es|
      invariant r == env + EnvOf(es[..i])
    {
      assert es[..i + 1][..i] == es[..i];
      if es[i].asEnvVars && es[i].source.SecretSource? {
        r := r + [es[i].source.secret];
      }
    }
    assert es[..|es|] == es;
  }

  /** The environment, the same for every container. */
  method BuildEnv(app: App) returns (env: seq<string>)
    ensures env == EnvFrom(app)
  {
    env := AppendEnv([], SecretEntries(app));
    env := AppendEnv(env, ExternalEntries(app));
    assert [] + EnvOf(SecretEntries(app)) == EnvOf(SecretEntries(app));
  }

  /** The lifecycle part of buildContainer. */
  method BuildHooks(app: App, primary: bool) returns (hooks: Option<Lifecycle>)
    ensures hooks == HooksFor(app, primary)
  {
    hooks := None;
    if primary && app.spec.lifecycle.Some? {
      var lc := app.spec.lifecycle.value;
      if lc.postStart.Some? || lc.preStop.Some? {
        hooks := Some(Lifecycle(lc.postStart, lc.preStop));
      }
    }
  }

  /** The ports part of buildContainer. */
  method BuildPorts(c: ContainerSpec) returns (ports: seq<ContainerPort>)
    ensures ports == PodPorts(c.ports)
  {
    ports := [];
    for i := 0 to |c.ports|
      invariant ports == PodPorts(c.ports)[..i]
    {
      var proto := c.ports[i].protocol;
      if proto == "" {
        proto := "TCP";
      }
      ports := ports + [ContainerPort(c.ports[i].name, c.ports[i].containerPort, proto)];
    }
  }

  /** buildContainers. */
  method BuildContainers(app: App) returns (containers: seq<Container>)
    ensures containers == MainContainers(app)
  {
    var cs := app.spec.containers;
    containers := [];
    for i := 0 to |cs|
      invariant containers == MainContainers(app)[..i]
    {
      var ports := BuildPorts(cs[i]);
      var hooks := BuildHooks(app, i == 0);
      var env := BuildEnv(app);
      var mounts := BuildVolumeMounts(app);
      containers := containers + [Container(cs[i].name, ports, env, mounts, hooks, cs[i].rest)];
    }
  }

  /** buildInitContainers. */
  method BuildInitContainers(app: App) returns (containers: seq<Container>)
    ensures containers == InitContainers(app)
  {
    var cs := app.spec.initContainers;
    containers := [];
    for i := 0 to |cs|
      invariant containers == InitContainers(app)[..i]
    {
      var env := BuildEnv(app);
      var mounts := BuildVolumeMounts(app);
      containers := containers + [Container(cs[i].name, [], env, mounts, None, cs[i].rest)];
    }
  }

  // ----- Closure -----

  predicate UniqueEntries(es: seq<Entry>) {
    forall i, j :: 0 <= i < j < |es| ==> es[i].name != es[j].name
  }

  /** Entry names are unique within each list of the spec. */
  predicate UniqueNames(app: App) {
    UniqueEntries(CmEntries(app)) && UniqueEntries(SecretEntries(app)) && UniqueEntries(ExternalEntries(app))
  }

  predicate DistinctNames(vs: seq<Volume>) {
    forall i, j :: 0 <= i < j < |vs| ==> vs[i].name != vs[j].name
  }

  lemma {:induction false} PrefixInjective(prefix: string, a: string, b: string)
    ensures prefix + a == prefix + b ==> a == b
    ensures StartsWith(prefix + a, prefix)
  {
    assert (prefix + a)[|prefix|..] == a && (prefix + b)[|prefix|..] == b;
  }

  /** The volume of some mounted entry of the list. */
  ghost predicate FromEntry(prefix: string, es: seq<Entry>, v: Volume) {
    exists j :: 0 <= j < |es| && es[j].mounted && v == Volume(prefix + es[j].name, es[j].source)
  }

  /** Volumes and mounts of a list line up, name for name; volumes of unique entries are distinct. */
  lemma {:induction false} VolumesOfShape(prefix: string, es: seq<Entry>)
    ensures |MountsOf(prefix, es)| == |VolumesOf(prefix, es)|
    ensures forall i :: 0 <= i < |VolumesOf(prefix, es)| ==>
              MountsOf(prefix, es)[i].name == VolumesOf(prefix, es)[i].name
    ensures forall v :: v in VolumesOf(prefix, es) ==> FromEntry(prefix, es, v)
    ensures UniqueEntries(es) ==> DistinctNames(VolumesOf(prefix, es))
  {
    if es != [] {
      var init, last := es[..|es| - 1], es[|es| - 1];
      VolumesOfShape(prefix, init);
      var r := VolumesOf(prefix, init);
      forall v | v in r
        ensures FromEntry(prefix, es, v)
        ensures UniqueEntries(es) ==> v.name != prefix + last.name
      {
        assert FromEntry(prefix, init, v);
        var j :| 0 <= j < |init| && init[j].mounted && v == Volume(prefix + init[j].name, init[j].source);
        assert es[j] == init[j];
        PrefixInjective(prefix, es[j].name, last.name);
      }
      assert forall i :: 0 <= i < |r| ==> r[i] in r;
      assert last.mounted ==> FromEntry(prefix, es, Volume(prefix + last.name, last.source));
    }
  }

  lemma {:induction false} NamesStartWith(prefix: string, es: seq<Entry>)
    ensures forall i :: 0 <= i < |VolumesOf(prefix, es)| ==> StartsWith(VolumesOf(prefix, es)[i].name, prefix)
  {
    VolumesOfShape(prefix, es);
    forall i | 0 <= i < |VolumesOf(prefix, es)|
      ensures StartsWith(VolumesOf(prefix, es)[i].name, prefix)
    {
      var v := VolumesOf(prefix, es)[i];
      assert FromEntry(prefix, es, v);
      var j :| 0 <= j < |es| && es[j].mounted && v == Volume(prefix + es[j].name, es[j].source);
      PrefixInjective(prefix, es[j].name, "");
    }
  }

  lemma {:induction false} FirstLetters(prefix: string, es: seq<Entry>)
    requires prefix != ""
    ensures forall i :: 0 <= i < |VolumesOf(prefix, es)| ==>
              VolumesOf(prefix, es)[i].name != "" && VolumesOf(prefix, es)[i].name[0] == prefix[0]
  {
    NamesStartWith(prefix, es);
    forall i | 0 <= i < |VolumesOf(prefix, es)|
      ensures VolumesOf(prefix, es)[i].name != "" && VolumesOf(prefix, es)[i].name[0] == prefix[0]
    {
      var n := VolumesOf(prefix, es)[i].name;
      assert n[..|prefix|][0] == prefix[0];
    }
  }

  /** Volume names of a spec with unique entry names are pairwise distinct across all four sources. */
  lemma {:induction false} VolumeNamesDistinct(app: App)
    requires UniqueNames(app)
    ensures DistinctNames(Volumes(app))
  {
    var d, c := DiskVolumes(app), VolumesOf("cm-", CmEntries(app));
    var s, e := VolumesOf("secret-", SecretEntries(app)), VolumesOf("es-", ExternalEntries(app));
    VolumesOfShape("cm-", CmEntries(app));
    VolumesOfShape("secret-", SecretEntries(app));
    VolumesOfShape("es-", ExternalEntries(app));
    FirstLetters("cm-", CmEntries(app));
    FirstLetters("secret-", SecretEntries(app));
    FirstLetters("es-", ExternalEntries(app));
    forall i, j | 0 <= i < j < |Volumes(app)|
      ensures Volumes(app)[i].name != Volumes(app)[j].name
    {
      var a, b := Volumes(app)[i].name, Volumes(app)[j].name;
      assert a[0] == b[0] ==> j < |d| || (|d| <= i && j < |d + c|) || (|d + c| <= i && j < |d + c + s|) ||
                              |d + c + s| <= i;
    }
  }

  lemma {:induction false} PartHasVolume(prefix: string, es: seq<Entry>, m: Mount) returns (v: Volume)
    requires m in MountsOf(prefix, es)
    ensures v in VolumesOf(prefix, es) && v.name == m.name
  {
    VolumesOfShape(prefix, es);
    var i :| 0 <= i < |MountsOf(prefix, es)| && MountsOf(prefix, es)[i] == m;
    v := VolumesOf(prefix, es)[i];
  }

  lemma {:induction false} MountNamesVolume(app: App, m: Mount) returns (v: Volume)
    requires m in Mounts(app)
    ensures v in Volumes(app) && v.name == m.name
  {
    if m in DiskMounts(app) {
      v := DiskVolumes(app)[0];
    } else if m in MountsOf("cm-", CmEntries(app)) {
      v := PartHasVolume("cm-", CmEntries(app), m);
    } else if m in MountsOf("secret-", SecretEntries(app)) {
      v := PartHasVolume("secret-", SecretEntries(app), m);
    } else {
      v := PartHasVolume("es-", ExternalEntries(app), m);
    }
  }

  /** Every mount of every main and init container names a volume of the pod, and only one. */
  lemma {:induction false} MountsAreClosed(app: App, c: Container, m: Mount)
    requires UniqueNames(app)
    requires c in MainContainers(app) || c in InitContainers(app)
    requires m in c.mounts
    ensures exists i :: 0 <= i < |Volumes(app)| && Volumes(app)[i].name == m.name &&
              forall j :: 0 <= j < |Volumes(app)| && Volumes(app)[j].name == m.name ==> j == i
  {
    VolumeNamesDistinct(app);
    var v := MountNamesVolume(app, m);
    var i :| 0 <= i < |Volumes(app)| && Volumes(app)[i] == v;
    assert forall j :: 0 <= j < |Volumes(app)| && Volumes(app)[j].name == m.name ==> j == i;
  }

  /** A volume comes from an entry of the spec: no ConfigMap or Secret is mounted that was not declared. */
  lemma {:induction false} VolumesComeFromEntries(app: App, v: Volume)
    requires v in Volumes(app)
    ensures v.source.ClaimSource? ==> app.spec.disk.Some? && v.source.claim == PvcName(app.name)
    ensures v.source.ConfigMapSource? ==>
              exists i :: 0 <= i < |app.spec.configMaps| &&
                          v.source.configMap == Child(app.name, app.spec.configMaps[i].name)
    ensures v.source.SecretSource? ==>
              (exists i :: 0 <= i < |app.spec.secrets| &&
                           v.source.secret == ResolvedSecretName(app.name, app.spec.secrets[i])) ||
              (exists i :: 0 <= i < |app.spec.externalSecrets| &&
                           v.source.secret == Child(app.name, app.spec.externalSecrets[i].name))
  {
    var c, s, e := CmEntries(app), SecretEntries(app), ExternalEntries(app);
    VolumesOfShape("cm-", c);
    VolumesOfShape("secret-", s);
    VolumesOfShape("es-", e);
    if v in VolumesOf("cm-", c) {
      assert FromEntry("cm-", c, v);
      var j :| 0 <= j < |c| && c[j].mounted && v == Volume("cm-" + c[j].name, c[j].source);
      assert c[j].source == ConfigMapSource(Child(app.name, app.spec.configMaps[j].name));
    } else if v in VolumesOf("secret-", s) {
      assert FromEntry("secret-", s, v);
      var j :| 0 <= j < |s| && s[j].mounted && v == Volume("secret-" + s[j].name, s[j].source);
      assert s[j].source == SecretSource(ResolvedSecretName(app.name, app.spec.secrets[j]));
    } else if v in VolumesOf("es-", e) {
      assert FromEntry("es-", e, v);
      var j :| 0 <= j < |e| && e[j].mounted && v == Volume("es-" + e[j].name, e[j].source);
      assert e[j].source == SecretSource(Child(app.name, app.spec.externalSecrets[j].name));
    }
  }

  /** The Secret of some entry that asks to be injected. */
  ghost predicate InjectedBy(es: seq<Entry>, secret: string) {
    exists j :: 0 <= j < |es| && es[j].asEnvVars && es[j].source == SecretSource(secret)
  }

  lemma {:induction false} EnvOfShape(es: seq<Entry>, secret: string)
    ensures secret in EnvOf(es) <==> InjectedBy(es, secret)
  {
    if es != [] {
      var init, last := es[..|es| - 1], es[|es| - 1];
      EnvOfShape(init, secret);
      if InjectedBy(init, secret) {
        var j :| 0 <= j < |init| && init[j].asEnvVars && init[j].source == SecretSource(secret);
        assert es[j] == init[j];
      }
      if InjectedBy(es, secret) {
        var j :| 0 <= j < |es| && es[j].asEnvVars && es[j].source == SecretSource(secret);
        assert j < |init| ==> init[j] == es[j];
      }
    }
  }

  /** A Secret that is neither inline nor unknown: referenced by the spec, or synced by ESO. */
  ghost predicate FromElsewhere(app: App, secret: string) {
    (exists i :: 0 <= i < |app.spec.secrets| && app.spec.secrets[i].secretRef == secret && secret != "") ||
    (exists i :: 0 <= i < |app.spec.externalSecrets| && secret == Child(app.name, app.spec.externalSecrets[i].name))
  }

  /** The Secret of some inline entry. */
  ghost predicate FromInline(app: App, secret: string) {
    exists i :: 0 <= i < |app.spec.secrets| && app.spec.secrets[i].secretRef == "" &&
                secret == Child(app.name, app.spec.secrets[i].name)
  }

  lemma {:induction false} VolumeSecretsComeFromEntries(app: App, v: Volume)
    requires v in Volumes(app) && v.source.SecretSource?
    ensures FromInline(app, v.source.secret) || FromElsewhere(app, v.source.secret)
  {
    VolumesComeFromEntries(app, v);
    if exists i :: 0 <= i < |app.spec.secrets| && v.source.secret == ResolvedSecretName(app.name, app.spec.secrets[i]) {
      var i :| 0 <= i < |app.spec.secrets| && v.source.secret == ResolvedSecretName(app.name, app.spec.secrets[i]);
      assert app.spec.secrets[i].secretRef == "" || app.spec.secrets[i].secretRef == v.source.secret;
    }
  }

  /** Injected Secrets, too, are declared in the spec. */
  lemma {:induction false} EnvSecretsComeFromEntries(app: App, secret: string)
    requires secret in EnvFrom(app)
    ensures FromInline(app, secret) || FromElsewhere(app, secret)
  {
    var s, e := SecretEntries(app), ExternalEntries(app);
    EnvOfShape(s, secret);
    EnvOfShape(e, secret);
    if InjectedBy(s, secret) {
      var j :| 0 <= j < |s| && s[j].asEnvVars && s[j].source == SecretSource(secret);
      assert secret == ResolvedSecretName(app.name, app.spec.secrets[j]);
      assert app.spec.secrets[j].secretRef == "" || app.spec.secrets[j].secretRef == secret;
    } else {
      var j :| 0 <= j < |e| && e[j].asEnvVars && e[j].source == SecretSource(secret);
      assert secret == Child(app.name, app.spec.externalSecrets[j].name);
    }
  }

  // ----- The template on the fields of the spec -----

  /** An entry of secrets asks for this Secret in the environment. */
  ghost predicate SecretInjects(app: App, x: string) {
    exists sec :: sec in app.spec.secrets && sec.asEnvVars &&
                  x == if sec.secretRef != "" then sec.secretRef else app.name + "-" + sec.name
  }

  /** An external secret asks for this Secret in the environment. */
  ghost predicate ExternalInjects(app: App, x: string) {
    exists es :: es in app.spec.externalSecrets && es.asEnvVars && x == app.name + "-" + es.name
  }

  lemma {:induction false} SecretEntriesInject(app: App, x: string)
    ensures InjectedBy(SecretEntries(app), x) <==> SecretInjects(app, x)
  {
    var es, secs := SecretEntries(app), app.spec.secrets;
    if InjectedBy(es, x) {
      var j :| 0 <= j < |es| && es[j].asEnvVars && es[j].source == SecretSource(x);
      assert secs[j] in secs;
    }
    if SecretInjects(app, x) {
      var sec :| sec in secs && sec.asEnvVars &&
                 x == if sec.secretRef != "" then sec.secretRef else app.name + "-" + sec.name;
      var j: nat :| j < |secs| && secs[j] == sec;
      assert es[j].asEnvVars && es[j].source == SecretSource(x);
    }
  }

  lemma {:induction false} ExternalEntriesInject(app: App, x: string)
    ensures InjectedBy(ExternalEntries(app), x) <==> ExternalInjects(app, x)
  {
    var es, ess := ExternalEntries(app), app.spec.externalSecrets;
    if InjectedBy(es, x) {
      var j :| 0 <= j < |es| && es[j].asEnvVars && es[j].source == SecretSource(x);
      assert ess[j] in ess;
    }
    if ExternalInjects(app, x) {
      var e :| e in ess && e.asEnvVars && x == app.name + "-" + e.name;
      var j: nat :| j < |ess| && ess[j] == e;
      assert es[j].asEnvVars && es[j].source == SecretSource(x);
    }
  }

  /** What is injected into a container, exactly. */
  lemma {:induction false} EnvExactly(app: App, x: string)
    ensures x in EnvFrom(app) <==> SecretInjects(app, x) || ExternalInjects(app, x)
  {
    EnvOfShape(SecretEntries(app), x);
    EnvOfShape(ExternalEntries(app), x);
    SecretEntriesInject(app, x);
    ExternalEntriesInject(app, x);
  }

  /** The mount of some mounted entry of the list. */
  ghost predicate MountOfEntry(prefix: string, es: seq<Entry>, m: Mount) {
    exists j :: 0 <= j < |es| && es[j].mounted && m == Mount(prefix + es[j].name, es[j].mountPath, "")
  }

  lemma {:induction false} ListedExactly(prefix: string, es: seq<Entry>, v: Volume, m: Mount)
    ensures v in VolumesOf(prefix, es) <==> FromEntry(prefix, es, v)
    ensures m in MountsOf(prefix, es) <==> MountOfEntry(prefix, es, m)
  {
    if es != [] {
      var init, last := es[..|es| - 1], es[|es| - 1];
      ListedExactly(prefix, init, v, m);
      assert forall j :: 0 <= j < |init| ==> init[j] == es[j];
      assert FromEntry(prefix, es, v) <==>
               FromEntry(prefix, init, v) || (last.mounted && v == Volume(prefix + last.name, last.source));
      assert MountOfEntry(prefix, es, m) <==>
               MountOfEntry(prefix, init, m) || (last.mounted && m == Mount(prefix + last.name, last.mountPath, ""));
    }
  }

  /** The volumes and mounts that the spec asks for, list by list. */
  ghost predicate ConfigMapVolume(app: App, v: Volume) {
    exists cm :: cm in app.spec.configMaps && v == Volume("cm-" + cm.name, ConfigMapSource(app.name + "-" + cm.name))
  }

  ghost predicate ConfigMapMounted(app: App, m: Mount) {
    exists cm :: cm in app.spec.configMaps && m == Mount("cm-" + cm.name, cm.mountPath, "")
  }

  ghost predicate SecretVolume(app: App, v: Volume) {
    exists sec :: sec in app.spec.secrets && sec.mountPath != "" &&
                  v == Volume("secret-" + sec.name,
                              SecretSource(if sec.secretRef != "" then sec.secretRef else app.name + "-" + sec.name))
  }

  ghost predicate SecretMounted(app: App, m: Mount) {
    exists sec :: sec in app.spec.secrets && sec.mountPath != "" && m == Mount("secret-" + sec.name, sec.mountPath, "")
  }

  ghost predicate ExternalVolume(app: App, v: Volume) {
    exists es :: es in app.spec.externalSecrets && es.mountPath != "" &&
                 v == Volume("es-" + es.name, SecretSource(app.name + "-" + es.name))
  }

  ghost predicate ExternalMounted(app: App, m: Mount) {
    exists es :: es in app.spec.externalSecrets && es.mountPath != "" && m == Mount("es-" + es.name, es.mountPath, "")
  }

  ghost predicate DiskMounted(app: App, m: Mount) {
    app.spec.disk.Some? &&
    exists part :: part in app.spec.disk.value.partitions && m == Mount("app-disk", part.mountPath, part.subPath)
  }

  lemma {:induction false} ConfigMapEntriesMount(app: App, v: Volume, m: Mount)
    ensures FromEntry("cm-", CmEntries(app), v) <==> ConfigMapVolume(app, v)
    ensures MountOfEntry("cm-", CmEntries(app), m) <==> ConfigMapMounted(app, m)
  {
    var es, cms := CmEntries(app), app.spec.configMaps;
    forall j: nat | j < |cms|
      ensures es[j] == Entry(cms[j].name, true, cms[j].mountPath, false, ConfigMapSource(app.name + "-" + cms[j].name))
      ensures cms[j] in cms
    {
    }
    forall cm | cm in cms
      ensures exists j: nat :: j < |cms| && cms[j] == cm
    {
    }
  }

  lemma {:induction false} SecretEntriesMount(app: App, v: Volume, m: Mount)
    ensures FromEntry("secret-", SecretEntries(app), v) <==> SecretVolume(app, v)
    ensures MountOfEntry("secret-", SecretEntries(app), m) <==> SecretMounted(app, m)
  {
    var es, secs := SecretEntries(app), app.spec.secrets;
    forall j: nat | j < |secs|
      ensures es[j].name == secs[j].name && es[j].mounted == (secs[j].mountPath != "")
      ensures es[j].mountPath == secs[j].mountPath
      ensures es[j].source ==
                SecretSource(if secs[j].secretRef != "" then secs[j].secretRef else app.name + "-" + secs[j].name)
      ensures secs[j] in secs
    {
    }
    forall sec | sec in secs
      ensures exists j: nat :: j < |secs| && secs[j] == sec
    {
    }
  }

  lemma {:induction false} ExternalEntriesMount(app: App, v: Volume, m: Mount)
    ensures FromEntry("es-", ExternalEntries(app), v) <==> ExternalVolume(app, v)
    ensures MountOfEntry("es-", ExternalEntries(app), m) <==> ExternalMounted(app, m)
  {
    var es, ess := ExternalEntries(app), app.spec.externalSecrets;
    forall j: nat | j < |ess|
      ensures es[j].name == ess[j].name && es[j].mounted == (ess[j].mountPath != "")
      ensures es[j].mountPath == ess[j].mountPath && es[j].source == SecretSource(app.name + "-" + ess[j].name)
      ensures ess[j] in ess
    {
    }
    forall e | e in ess
      ensures exists j: nat :: j < |ess| && ess[j] == e
    {
    }
  }

  /** The volumes of the pod, exactly. */
  lemma {:induction false} VolumesExactly(app: App, v: Volume)
    ensures v in Volumes(app) <==>
              (app.spec.disk.Some? && v == Volume("app-disk", ClaimSource(app.name + "-disk"))) ||
              ConfigMapVolume(app, v) || SecretVolume(app, v) || ExternalVolume(app, v)
  {
    var m := Mount("", "", "");
    ListedExactly("cm-", CmEntries(app), v, m);
    ListedExactly("secret-", SecretEntries(app), v, m);
    ListedExactly("es-", ExternalEntries(app), v, m);
    ConfigMapEntriesMount(app, v, m);
    SecretEntriesMount(app, v, m);
    ExternalEntriesMount(app, v, m);
  }

  /** The mounts of every container, exactly. */
  lemma {:induction false} MountsExactly(app: App, m: Mount)
    ensures m in Mounts(app) <==>
              DiskMounted(app, m) || ConfigMapMounted(app, m) || SecretMounted(app, m) || ExternalMounted(app, m)
  {
    var v := Volume("", ClaimSource(""));
    ListedExactly("cm-", CmEntries(app), v, m);
    ListedExactly("secret-", SecretEntries(app), v, m);
    ListedExactly("es-", ExternalEntries(app), v, m);
    ConfigMapEntriesMount(app, v, m);
    SecretEntriesMount(app, v, m);
    ExternalEntriesMount(app, v, m);
    DiskMountsExactly(app, m);
  }

  lemma {:induction false} DiskMountsExactly(app: App, m: Mount)
    ensures m in DiskMounts(app) <==> DiskMounted(app, m)
  {
    if DiskMounted(app, m) {
      var parts := app.spec.disk.value.partitions;
      var part :| part in parts && m == Mount("app-disk", part.mountPath, part.subPath);
      var i: nat :| i < |parts| && parts[i] == part;
      assert DiskMounts(app)[i] == m;
    }
  }

  /** x stands before y. */
  predicate Precedes(xs: seq<string>, x: string, y: string) {
    exists a, b :: 0 <= a < b < |xs| && xs[a] == x && xs[b] == y
  }

  lemma {:induction false} EnvOfOrdered(es: seq<Entry>, i: nat, j: nat, x: string, y: string)
    requires i < j < |es| && es[i].asEnvVars && es[i].source == SecretSource(x)
    requires es[j].asEnvVars && es[j].source == SecretSource(y)
    ensures Precedes(EnvOf(es), x, y)
  {
    var init := es[..|es| - 1];
    var r := EnvOf(init);
    if j < |init| {
      EnvOfOrdered(init, i, j, x, y);
      var a, b :| 0 <= a < b < |r| && r[a] == x && r[b] == y;
      assert EnvOf(es)[a] == x && EnvOf(es)[b] == y;
    } else {
      EnvOfShape(init, x);
      assert init[i] == es[i] && InjectedBy(init, x);
      var a: nat :| a < |r| && r[a] == x;
      assert EnvOf(es)[a] == x && EnvOf(es)[|r|] == y;
    }
  }

  /** Secrets are injected before external secrets; of two that hold the same variable the later one counts. */
  lemma {:induction false} SecretsBeforeExternals(app: App, x: string, y: string)
    requires SecretInjects(app, x) && ExternalInjects(app, y)
    ensures Precedes(EnvFrom(app), x, y)
  {
    var p, q := EnvOf(SecretEntries(app)), EnvOf(ExternalEntries(app));
    EnvOfShape(SecretEntries(app), x);
    EnvOfShape(ExternalEntries(app), y);
    SecretEntriesInject(app, x);
    ExternalEntriesInject(app, y);
    var a: nat :| a < |p| && p[a] == x;
    var b: nat :| b < |q| && q[b] == y;
    assert (p + q)[a] == x && (p + q)[|p| + b] == y;
  }

  lemma {:induction false} PrecedesAround(p: seq<string>, q: seq<string>, x: string, y: string)
    ensures Precedes(p, x, y) || Precedes(q, x, y) ==> Precedes(p + q, x, y)
  {
    if Precedes(p, x, y) {
      var a, b :| 0 <= a < b < |p| && p[a] == x && p[b] == y;
      assert (p + q)[a] == x && (p + q)[b] == y;
    }
    if Precedes(q, x, y) {
      var a, b :| 0 <= a < b < |q| && q[a] == x && q[b] == y;
      assert (p + q)[|p| + a] == x && (p + q)[|p| + b] == y;
    }
  }

  /** Each in the order of the spec. */
  lemma {:induction false} SecretsInOrder(app: App, i: nat, j: nat)
    requires i < j < |app.spec.secrets| && app.spec.secrets[i].asEnvVars && app.spec.secrets[j].asEnvVars
    ensures var a, b := app.spec.secrets[i], app.spec.secrets[j];
            Precedes(EnvFrom(app), if a.secretRef != "" then a.secretRef else app.name + "-" + a.name,
                     if b.secretRef != "" then b.secretRef else app.name + "-" + b.name)
  {
    var x, y := ResolvedSecretName(app.name, app.spec.secrets[i]), ResolvedSecretName(app.name, app.spec.secrets[j]);
    EnvOfOrdered(SecretEntries(app), i, j, x, y);
    PrecedesAround(EnvOf(SecretEntries(app)), EnvOf(ExternalEntries(app)), x, y);
  }

  lemma {:induction false} ExternalsInOrder(app: App, i: nat, j: nat)
    requires i < j < |app.spec.externalSecrets|
    requires app.spec.externalSecrets[i].asEnvVars && app.spec.externalSecrets[j].asEnvVars
    ensures Precedes(EnvFrom(app), app.name + "-" + app.spec.externalSecrets[i].name,
                     app.name + "-" + app.spec.externalSecrets[j].name)
  {
    var x, y := Child(app.name, app.spec.externalSecrets[i].name), Child(app.name, app.spec.externalSecrets[j].name);
    EnvOfOrdered(ExternalEntries(app), i, j, x, y);
    PrecedesAround(EnvOf(SecretEntries(app)), EnvOf(ExternalEntries(app)), x, y);
  }
}
