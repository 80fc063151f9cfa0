/**
 What a successful reconcile leaves for each entry of the spec. When entries share a name the last
 one decides; with distinct names every entry arrives.
 */
module Delivery {
  import opened Common
  import opened Spec
  import opened Pod
  import opened Cluster
  import opened Desired
  import opened Convergence

  /** A write with no later write to the same key is the last one on it. */
  lemma {:induction false} LastOnMiddle(a: seq<Op>, op: Op, b: seq<Op>, k: Key)
    requires (op.Apply? || op.Replace?) && op.key == k
    requires forall o :: o in b && (o.Apply? || o.Replace?) ==> o.key != k
    ensures LastOn(a + [op] + b, k) == Some(op)
  {
    var ops := a + [op] + b;
    if b == [] {
      assert ops[|ops| - 1] == op;
    } else {
      assert ops[|ops| - 1] == b[|b| - 1] && b[|b| - 1] in b;
      assert ops[..|ops| - 1] == a + [op] + b[..|b| - 1];
      LastOnMiddle(a, op, b[..|b| - 1], k);
    }
  }

  lemma {:induction false} ConfigMapWritesAppend(app: App, a: seq<ConfigMapMount>, b: seq<ConfigMapMount>)
    ensures ConfigMapWrites(app, a + b) == ConfigMapWrites(app, a) + ConfigMapWrites(app, b)
  {
    if a == [] {
      assert a + b == b;
    } else {
      assert (a + b)[1..] == a[1..] + b;
      ConfigMapWritesAppend(app, a[1..], b);
    }
  }

  lemma {:induction false} SecretWritesAppend(app: App, a: seq<SecretMount>, b: seq<SecretMount>)
    ensures SecretWrites(app, a + b) == SecretWrites(app, a) + SecretWrites(app, b)
  {
    if a == [] {
      assert a + b == b;
    } else {
      assert (a + b)[1..] == a[1..] + b;
      SecretWritesAppend(app, a[1..], b);
    }
  }

  lemma {:induction false} ExternalWritesAppend(app: App, a: seq<ExternalSecretMount>, b: seq<ExternalSecretMount>)
    ensures ExternalWrites(app, a + b) == ExternalWrites(app, a) + ExternalWrites(app, b)
  {
    if a == [] {
      assert a + b == b;
    } else {
      assert (a + b)[1..] == a[1..] + b;
      ExternalWritesAppend(app, a[1..], b);
    }
  }

  lemma {:induction false} Around<T>(xs: seq<T>, i: nat)
    requires i < |xs|
    ensures xs == xs[..i] + ([xs[i]] + xs[i + 1..])
  {
  }

  lemma {:induction false} NoConfigMapWrite(app: App, cms: seq<ConfigMapMount>, name: string)
    requires forall cm :: cm in cms ==> cm.name != name
    ensures forall op :: op in ConfigMapWrites(app, cms) ==> op.key != Key(ConfigMap, app.ns, Child(app.name, name))
  {
    if cms != [] {
      assert cms[0] in cms;
      NoConfigMapWrite(app, cms[1..], name);
      PrefixInjective(app.name + "-", cms[0].name, name);
    }
  }

  lemma {:induction false} ConfigMapLast(app: App, i: nat)
    requires i < |app.spec.configMaps|
    requires forall j :: i < j < |app.spec.configMaps| ==> app.spec.configMaps[j].name != app.spec.configMaps[i].name
    ensures var op := ConfigMapWrite(app, app.spec.configMaps[i]);
            LastOn(ConfigMapWrites(app, app.spec.configMaps), op.key) == Some(op)
  {
    var cms := app.spec.configMaps;
    var op, rest := ConfigMapWrite(app, cms[i]), cms[i + 1..];
    Around(cms, i);
    ConfigMapWritesAppend(app, cms[..i], [cms[i]] + rest);
    assert ([cms[i]] + rest)[1..] == rest;
    NoConfigMapWrite(app, rest, cms[i].name);
    LastOnMiddle(ConfigMapWrites(app, cms[..i]), op, ConfigMapWrites(app, rest), op.key);
    assert ConfigMapWrites(app, cms[..i]) + ([op] + ConfigMapWrites(app, rest)) ==
             ConfigMapWrites(app, cms[..i]) + [op] + ConfigMapWrites(app, rest);
  }

  /** The last ConfigMap entry of a name is the ConfigMap of that name. */
  lemma {:induction false} ConfigMapDelivered(app: App, disc: Discovery, now: int, s: Objs, i: nat)
    requires !app.spec.paused && RunAll(app, Program(app, disc, now), s).ok
    requires i < |app.spec.configMaps|
    requires forall j :: i < j < |app.spec.configMaps| ==> app.spec.configMaps[j].name != app.spec.configMaps[i].name
    ensures var cm := app.spec.configMaps[i];
            var slot := Get(RunAll(app, Program(app, disc, now), s).objs,
                            Key(ConfigMap, app.ns, app.name + "-" + cm.name));
            Managed(app, slot) && slot.value.body == Data(cm.data)
  {
    ConfigMapLast(app, i);
    Converged(app, disc, now, s, ConfigMapWrite(app, app.spec.configMaps[i]).key);
  }

  lemma {:induction false} NoSecretWrite(app: App, secs: seq<SecretMount>, name: string)
    requires forall sec :: sec in secs && sec.secretRef == "" ==> sec.name != name
    ensures forall op :: op in SecretWrites(app, secs) ==> op.key != Key(Secret, app.ns, Child(app.name, name))
  {
    if secs != [] {
      assert secs[0] in secs;
      NoSecretWrite(app, secs[1..], name);
      PrefixInjective(app.name + "-", secs[0].name, name);
    }
  }

  lemma {:induction false} SecretLast(app: App, i: nat)
    requires i < |app.spec.secrets| && app.spec.secrets[i].secretRef == ""
    requires forall j :: i < j < |app.spec.secrets| && app.spec.secrets[j].secretRef == "" ==>
               app.spec.secrets[j].name != app.spec.secrets[i].name
    ensures var op := SecretWrite(app, app.spec.secrets[i]);
            LastOn(SecretWrites(app, app.spec.secrets), op.key) == Some(op)
  {
    var secs := app.spec.secrets;
    var op, rest := SecretWrite(app, secs[i]), secs[i + 1..];
    Around(secs, i);
    SecretWritesAppend(app, secs[..i], [secs[i]] + rest);
    assert ([secs[i]] + rest)[1..] == rest;
    NoSecretWrite(app, rest, secs[i].name);
    LastOnMiddle(SecretWrites(app, secs[..i]), op, SecretWrites(app, rest), op.key);
    assert SecretWrites(app, secs[..i]) + ([op] + SecretWrites(app, rest)) ==
             SecretWrites(app, secs[..i]) + [op] + SecretWrites(app, rest);
  }

  /** The last inline Secret entry of a name is the Secret of that name; an entry without data gives an
      empty Secret. */
  lemma {:induction false} SecretDelivered(app: App, disc: Discovery, now: int, s: Objs, i: nat)
    requires !app.spec.paused && RunAll(app, Program(app, disc, now), s).ok
    requires i < |app.spec.secrets| && app.spec.secrets[i].secretRef == ""
    requires forall j :: i < j < |app.spec.secrets| && app.spec.secrets[j].secretRef == "" ==>
               app.spec.secrets[j].name != app.spec.secrets[i].name
    ensures var sec := app.spec.secrets[i];
            var slot := Get(RunAll(app, Program(app, disc, now), s).objs,
                            Key(Secret, app.ns, app.name + "-" + sec.name));
            Managed(app, slot) && slot.value.body.Data? &&
            (sec.data.Some? ==> slot.value.body.data == sec.data.value) &&
            (sec.data.None? ==> slot.value.body.data == map[])
  {
    SecretLast(app, i);
    Converged(app, disc, now, s, SecretWrite(app, app.spec.secrets[i]).key);
  }

  lemma {:induction false} NoExternalWrite(app: App, ess: seq<ExternalSecretMount>, name: string)
    requires forall es :: es in ess ==> es.name != name
    ensures forall op :: op in ExternalWrites(app, ess) ==> op.key != Key(ExternalSecret, app.ns, Child(app.name, name))
  {
    if ess != [] {
      assert ess[0] in ess;
      NoExternalWrite(app, ess[1..], name);
      PrefixInjective(app.name + "-", ess[0].name, name);
    }
  }

  lemma {:induction false} ExternalLast(app: App, i: nat)
    requires i < |app.spec.externalSecrets|
    requires forall j :: i < j < |app.spec.externalSecrets| ==>
               app.spec.externalSecrets[j].name != app.spec.externalSecrets[i].name
    ensures var op := ExternalWrite(app, app.spec.externalSecrets[i]);
            LastOn(ExternalWrites(app, app.spec.externalSecrets), op.key) == Some(op)
  {
    var ess := app.spec.externalSecrets;
    var op, rest := ExternalWrite(app, ess[i]), ess[i + 1..];
    Around(ess, i);
    ExternalWritesAppend(app, ess[..i], [ess[i]] + rest);
    assert ([ess[i]] + rest)[1..] == rest;
    NoExternalWrite(app, rest, ess[i].name);
    LastOnMiddle(ExternalWrites(app, ess[..i]), op, ExternalWrites(app, rest), op.key);
    assert ExternalWrites(app, ess[..i]) + ([op] + ExternalWrites(app, rest)) ==
             ExternalWrites(app, ess[..i]) + [op] + ExternalWrites(app, rest);
  }

  /** The last ExternalSecret entry of a name is the ExternalSecret of that name, and ESO is told to
      write the Secret that the pod template reads, with labels the operator watches. */
  lemma {:induction false} ExternalSecretDelivered(app: App, disc: Discovery, now: int, s: Objs, i: nat)
    requires !app.spec.paused && disc.externalSecrets && RunAll(app, Program(app, disc, now), s).ok
    requires i < |app.spec.externalSecrets|
    requires forall j :: i < j < |app.spec.externalSecrets| ==>
               app.spec.externalSecrets[j].name != app.spec.externalSecrets[i].name
    ensures var es := app.spec.externalSecrets[i];
            var slot := Get(RunAll(app, Program(app, disc, now), s).objs,
                            Key(ExternalSecret, app.ns, app.name + "-" + es.name));
            Managed(app, slot) && slot.value.annotations == map[] && slot.value.body == ExternalBody(app, es)
    ensures ExternalEntries(app)[i].source == SecretSource(ExternalBody(app, app.spec.externalSecrets[i]).target)
  {
    ExternalLast(app, i);
    Converged(app, disc, now, s, ExternalWrite(app, app.spec.externalSecrets[i]).key);
  }

  /** Whether entry i is the last domain of its Ingress name. */
  predicate LastOfName(app: App, i: nat)
    requires i < |app.spec.domains|
  {
    forall j :: i < j < |app.spec.domains| ==>
             IngressKey(app, app.spec.domains[j]) != IngressKey(app, app.spec.domains[i])
  }

  lemma {:induction false} NoIngressWrite(app: App, ds: seq<DomainSpec>, k: Key)
    requires forall d :: d in ds ==> IngressKey(app, d) != k
    ensures forall o :: o in IngressWrites(app, ds) ==> o.key != k
  {
    forall o | o in IngressWrites(app, ds)
      ensures o.key != k
    {
      var i: nat :| i < |ds| && IngressWrites(app, ds)[i] == o;
      assert ds[i] in ds && o.key == IngressKey(app, ds[i]);
    }
  }

  lemma {:induction false} IngressWritesAround(app: App, ds: seq<DomainSpec>, i: nat)
    requires i < |ds|
    ensures IngressWrites(app, ds) == IngressWrites(app, ds[..i]) + [IngressWrite(app, ds[i])] +
                                      IngressWrites(app, ds[i + 1..])
  {
  }

  lemma {:induction false} IngressLast(app: App, i: nat)
    requires i < |app.spec.domains| && LastOfName(app, i)
    ensures LastOn(IngressWrites(app, app.spec.domains), IngressKey(app, app.spec.domains[i]))
            == Some(IngressWrite(app, app.spec.domains[i]))
  {
    var ds := app.spec.domains;
    var d, rest := ds[i], ds[i + 1..];
    IngressWritesAround(app, ds, i);
    forall e | e in rest
      ensures IngressKey(app, e) != IngressKey(app, d)
    {
      var j: nat :| j < |rest| && rest[j] == e;
      assert ds[i + 1 + j] == e;
    }
    NoIngressWrite(app, rest, IngressKey(app, d));
    LastOnMiddle(IngressWrites(app, ds[..i]), IngressWrite(app, d), IngressWrites(app, rest), IngressKey(app, d));
  }

  /** The last domain of an Ingress name decides that Ingress. */
  lemma {:induction false} IngressDelivered(app: App, disc: Discovery, now: int, s: Objs, i: nat)
    requires !app.spec.paused && RunAll(app, Program(app, disc, now), s).ok
    requires i < |app.spec.domains| && LastOfName(app, i)
    ensures var d := app.spec.domains[i];
            var slot := Get(RunAll(app, Program(app, disc, now), s).objs, IngressKey(app, d));
            Managed(app, slot) && slot.value.annotations == IngressAnnotationsFor(app, d) &&
            slot.value.body == RouteBody(app, d)
  {
    IngressLast(app, i);
    Converged(app, disc, now, s, IngressKey(app, app.spec.domains[i]));
  }

  // ----- Steps with one object -----

  /** What a step with one operation leaves of the object it is about. */
  lemma {:induction false} FoldOne(app: App, op: Op, k: Key, cur: Slot)
    requires (op.Apply? || op.Replace? || op.Drop?) && op.key == k
    requires Fold(app, [op], k, cur).Left?
    ensures if op.Drop? then Fold(app, [op], k, cur) == Left(None)
            else Fold(app, [op], k, cur).slot.Some? &&
                 Fold(app, [op], k, cur).slot.value.owner == if op.Apply? then Some(Me(app)) else op.want.owner
  {
    assert [op][1..] == [];
  }

  lemma {:induction false} ServiceStep(app: App, cur: Slot)
    requires Fold(app, ServiceOps(app), Key(Service, app.ns, app.name), cur).Left?
    ensures var slot := Fold(app, ServiceOps(app), Key(Service, app.ns, app.name), cur).slot;
            (slot.Some? <==> ServicePorts(app) != []) && (slot.Some? ==> slot.value.owner == Some(Me(app)))
  {
    assert ServiceOps(app) == [ServiceOps(app)[0]];
    FoldOne(app, ServiceOps(app)[0], Key(Service, app.ns, app.name), cur);
  }

  lemma {:induction false} HpaStep(app: App, cur: Slot)
    requires Fold(app, HpaOps(app), Key(Hpa, app.ns, app.name), cur).Left?
    ensures var slot := Fold(app, HpaOps(app), Key(Hpa, app.ns, app.name), cur).slot;
            (slot.Some? <==> app.spec.autoscaling.Some? && app.spec.autoscaling.value.enabled) &&
            (slot.Some? ==> slot.value.owner == Some(Me(app)))
  {
    assert HpaOps(app) == [HpaOps(app)[0]];
    FoldOne(app, HpaOps(app)[0], Key(Hpa, app.ns, app.name), cur);
  }

  lemma {:induction false} MonitorStep(app: App, disc: Discovery, cur: Slot)
    requires disc.serviceMonitors && Fold(app, MonitorOps(app, disc), MonitorKey(app), cur).Left?
    ensures var slot := Fold(app, MonitorOps(app, disc), MonitorKey(app), cur).slot;
            (slot.Some? <==> Scrapes(AllPorts(app.spec.containers)) != []) &&
            (slot.Some? ==> slot.value.owner == Some(Me(app)))
  {
    assert MonitorOps(app, disc) == [MonitorOps(app, disc)[0]];
    FoldOne(app, MonitorOps(app, disc)[0], MonitorKey(app), cur);
  }

  lemma {:induction false} ServiceSlot(app: App, disc: Discovery, now: int, s: Objs, k: Key)
    requires !app.spec.paused && k.kind == Service && RunAll(app, Program(app, disc, now), s).ok
    ensures Fold(app, ServiceOps(app), k, Get(s, k)) == Left(Get(RunAll(app, Program(app, disc, now), s).objs, k))
  {
    assert StepOps(app, disc, now, 6) == ServiceOps(app);
    FinalSlot(app, disc, now, s, k);
  }

  lemma {:induction false} HpaSlot(app: App, disc: Discovery, now: int, s: Objs, k: Key)
    requires !app.spec.paused && k.kind == Hpa && RunAll(app, Program(app, disc, now), s).ok
    ensures Fold(app, HpaOps(app), k, Get(s, k)) == Left(Get(RunAll(app, Program(app, disc, now), s).objs, k))
  {
    assert StepOps(app, disc, now, 10) == HpaOps(app);
    FinalSlot(app, disc, now, s, k);
  }

  /** After a successful run the Service is there, controlled by the app, iff some port is exposed; otherwise
      whatever had its name is gone, whoever controlled it. */
  lemma {:induction false} ServicePresentExactly(app: App, disc: Discovery, now: int, s: Objs)
    requires !app.spec.paused && RunAll(app, Program(app, disc, now), s).ok
    ensures var slot := Get(RunAll(app, Program(app, disc, now), s).objs, Key(Service, app.ns, app.name));
            (slot.Some? <==> ServicePorts(app) != []) && (slot.Some? ==> slot.value.owner == Some(Me(app)))
  {
    ServiceSlot(app, disc, now, s, Key(Service, app.ns, app.name));
    ServiceStep(app, Get(s, Key(Service, app.ns, app.name)));
  }

  /** The same for the autoscaler. */
  lemma {:induction false} HpaPresentExactly(app: App, disc: Discovery, now: int, s: Objs)
    requires !app.spec.paused && RunAll(app, Program(app, disc, now), s).ok
    ensures var slot := Get(RunAll(app, Program(app, disc, now), s).objs, Key(Hpa, app.ns, app.name));
            (slot.Some? <==> app.spec.autoscaling.Some? && app.spec.autoscaling.value.enabled) &&
            (slot.Some? ==> slot.value.owner == Some(Me(app)))
  {
    HpaSlot(app, disc, now, s, Key(Hpa, app.ns, app.name));
    HpaStep(app, Get(s, Key(Hpa, app.ns, app.name)));
  }

  lemma {:induction false} MonitorSlot(app: App, disc: Discovery, now: int, s: Objs, k: Key)
    requires !app.spec.paused && k.kind == ServiceMonitor && RunAll(app, Program(app, disc, now), s).ok
    ensures Fold(app, MonitorOps(app, disc), k, Get(s, k)) == Left(Get(RunAll(app, Program(app, disc, now), s).objs, k))
  {
    FinalSlot(app, disc, now, s, k);
    assert StepOps(app, disc, now, StepOf(k.kind)) == MonitorOps(app, disc);
  }

  /** The same for the ServiceMonitor, which is even taken over from another owner. */
  lemma {:induction false} MonitorPresentExactly(app: App, disc: Discovery, now: int, s: Objs)
    requires !app.spec.paused && disc.serviceMonitors && RunAll(app, Program(app, disc, now), s).ok
    ensures var slot := Get(RunAll(app, Program(app, disc, now), s).objs, MonitorKey(app));
            (slot.Some? <==> Scrapes(AllPorts(app.spec.containers)) != []) &&
            (slot.Some? ==> slot.value.owner == Some(Me(app)))
  {
    MonitorSlot(app, disc, now, s, MonitorKey(app));
    MonitorStep(app, disc, Get(s, MonitorKey(app)));
  }
}
