/**
 Running the same spec twice: the second run succeeds and changes no object beyond the nudge
 annotation, even when entries share a name. Also what holds when the Deployment is written.
 */
module Fixpoint {
  import opened Common
  import opened Spec
  import opened Pod
  import opened Cluster
  import opened Desired
  import opened Convergence
  import opened Recovery

  /** Doing an operation again changes nothing. */
  lemma {:induction false} TouchTwice(app: App, op: Op, k: Key, cur: Slot, synced: Option<string>)
    requires !op.Nudge? && Touch(app, op, k, cur, synced).Left?
    ensures var slot := Touch(app, op, k, cur, synced).slot; Touch(app, op, k, slot, synced) == Left(slot)
  {
    if op.Apply? || op.Guarded? {
      var base := if cur.Some? then cur.value.annotations else map[];
      assert (base + op.want.annotations) + op.want.annotations == base + op.want.annotations;
    }
  }

  lemma {:induction false} TouchBare(app: App, op: Op, k: Key, a: Slot, b: Slot)
    requires SameButNudge(a, b)
    ensures match Touch(app, op, k, a, None)
            case Refused => Touch(app, op, k, b, None) == Refused
            case Left(slot) => Touch(app, op, k, b, None).Left? && SameButNudge(slot, Touch(app, op, k, b, None).slot)
  {
  }

  /** The nudge annotation influences nothing but itself. */
  lemma {:induction false} FoldBare(app: App, ops: seq<Op>, k: Key, a: Slot, b: Slot)
    requires SameButNudge(a, b)
    ensures match Fold(app, ops, k, a)
            case Refused => Fold(app, ops, k, b) == Refused
            case Left(slot) => Fold(app, ops, k, b).Left? && SameButNudge(slot, Fold(app, ops, k, b).slot)
  {
    if ops != [] {
      TouchBare(app, ops[0], k, a, b);
      if Touch(app, ops[0], k, a, None).Left? {
        FoldBare(app, ops[1..], k, Touch(app, ops[0], k, a, None).slot, Touch(app, ops[0], k, b, None).slot);
      }
    }
  }

  lemma {:induction false} FoldEnsures(app: App, ops: seq<Op>, k: Key, cur: Slot)
    requires forall op :: op in ops ==> op.Ensure?
    ensures Fold(app, ops, k, cur).Left?
    ensures cur.Some? ==> Fold(app, ops, k, cur) == Left(cur)
  {
    if ops != [] {
      assert ops[0].Ensure?;
      FoldEnsures(app, ops[1..], k, Touch(app, ops[0], k, cur, None).slot);
    }
  }

  lemma {:induction false} SegmentElsewhere(app: App, ops: seq<Op>, kind: Kind, k: Key, cur: Slot)
    requires Segment(app, ops, kind) && k.ns != app.ns
    requires Fold(app, ops, k, cur).Left?
    ensures Fold(app, ops, k, cur) == Left(cur)
  {
    var writes, prune := ops[..|ops| - 1], ops[|ops| - 1];
    assert ops == writes + [prune];
    FoldAppend(app, writes, [prune], k, cur);
    FoldWrites(app, writes, kind, k, cur);
    LastOnShape(writes, k);
    assert [prune][1..] == [];
  }

  /** Doing a list again changes the slot no more, unless it is refused. */
  predicate Settles(app: App, ops: seq<Op>, k: Key, cur: Slot) {
    var once := Fold(app, ops, k, cur);
    once.Left? ==> Fold(app, ops, k, once.slot) == once || Fold(app, ops, k, once.slot) == Refused
  }

  lemma {:induction false} SegmentTwice(app: App, ops: seq<Op>, kind: Kind, k: Key, cur: Slot)
    requires Segment(app, ops, kind) && k.kind == kind
    ensures Settles(app, ops, k, cur)
  {
    if Fold(app, ops, k, cur).Left? {
      var slot := Fold(app, ops, k, cur).slot;
      if Fold(app, ops, k, slot).Left? {
        if k.ns != app.ns {
          SegmentElsewhere(app, ops, kind, k, cur);
        } else {
          FoldSegment(app, ops, kind, k, cur);
          FoldSegment(app, ops, kind, k, slot);
          var last := LastOn(ops[..|ops| - 1], k);
          if last.Some? {
            LastOnShape(ops[..|ops| - 1], k);
            TouchTwice(app, last.value, k, cur, None);
          }
        }
      }
    }
  }

  lemma {:induction false} SingleTwice(app: App, ops: seq<Op>, k: Key, cur: Slot)
    requires |ops| <= 1 && forall op :: op in ops ==> !op.Nudge?
    ensures Settles(app, ops, k, cur)
  {
    if ops != [] {
      assert ops[1..] == [] && ops[0] in ops;
      if Touch(app, ops[0], k, cur, None).Left? {
        TouchTwice(app, ops[0], k, cur, None);
      }
    }
  }

  lemma {:induction false} EnsuresTwice(app: App, ops: seq<Op>, k: Key, cur: Slot)
    requires forall op :: op in ops ==> op.Ensure?
    ensures Settles(app, ops, k, cur)
  {
    FoldEnsures(app, ops, k, cur);
    if Fold(app, ops, k, cur).slot.Some? {
      FoldEnsures(app, ops, k, Fold(app, ops, k, cur).slot);
    } else {
      NothingEnsured(app, ops, k, cur);
    }
  }

  lemma {:induction false} NothingEnsured(app: App, ops: seq<Op>, k: Key, cur: Slot)
    requires forall op :: op in ops ==> op.Ensure?
    requires Fold(app, ops, k, cur) == Left(None)
    ensures cur == None
  {
    if ops != [] {
      assert ops[0].Ensure?;
      NothingEnsured(app, ops[1..], k, Touch(app, ops[0], k, cur, None).slot);
    }
  }

  /** Every step is idempotent on every slot. */
  lemma {:induction false} StepTwice(app: App, disc: Discovery, now: int, k: Key, cur: Slot)
    requires k.kind != Deployment
    ensures Settles(app, StepOps(app, disc, now, StepOf(k.kind)), k, cur)
  {
    var i := StepOf(k.kind);
    var ops := StepOps(app, disc, now, i);
    if k.kind in PRUNED && Served(disc, k.kind) {
      PrunedSegment(app, disc, now, k.kind);
      SegmentTwice(app, ops, k.kind, k, cur);
    } else if k.kind in {ServiceAccount, SecretStore} {
      EnsuresTwice(app, ops, k, cur);
    } else {
      SegmentsAreProper(app, disc, now, i);
      SingleTwice(app, ops, k, cur);
    }
  }

  // ----- The second run succeeds -----

  lemma {:induction false} ClaimsUnblock(app: App, ops: seq<Op>, s: Objs)
    requires forall op :: op in ops ==> ProperOp(app, op)
    requires RunAll(app, ops, s).ok
    ensures forall k :: Blocked(app, Get(RunAll(app, ops, s).objs, k)) ==> Blocked(app, Get(s, k))
    ensures forall op :: op in ops && Claims(op) ==> !Blocked(app, Get(RunAll(app, ops, s).objs, op.key))
  {
    if ops != [] {
      var r := Exec(app, ops[0], s);
      assert ProperOp(app, ops[0]);
      var i: nat :| Proper(app, i, ops[0]);
      ClaimsUnblock(app, ops[1..], r.objs);
      forall k
        ensures Blocked(app, Get(r.objs, k)) ==> Blocked(app, Get(s, k))
      {
        ExecSlots(app, ops[0], s, k);
        BlockedStays(app, ops[0], k, Get(s, k), Synced(app, s), i);
      }
      if Claims(ops[0]) {
        ExecSlots(app, ops[0], s, ops[0].key);
        assert !Blocked(app, Get(r.objs, ops[0].key));
      }
      assert ops == [ops[0]] + ops[1..];
    }
  }

  // ----- The Deployment -----

  lemma {:induction false} FlattenAppend(a: seq<seq<Op>>, b: seq<seq<Op>>)
    ensures Flatten(a + b) == Flatten(a) + Flatten(b)
  {
    if a == [] {
      assert a + b == b;
    } else {
      assert (a + b)[1..] == a[1..] + b;
      FlattenAppend(a[1..], b);
    }
  }

  ghost function Before(app: App, disc: Discovery, now: int): seq<Op> {
    Flatten(Segments(app, disc, now)[..DEPLOY_STEP])
  }

  ghost function Later(app: App, disc: Discovery, now: int): seq<Op> {
    Flatten(Segments(app, disc, now)[DEPLOY_STEP + 1..])
  }

  lemma {:induction false} KindsBefore(app: App, disc: Discovery, now: int)
    ensures forall op :: op in Before(app, disc, now) ==>
              OpKind(op) in {ConfigMap, Secret, ServiceAccount, SecretStore, ExternalSecret}
  {
    var segs := Segments(app, disc, now)[..DEPLOY_STEP];
    forall op | op in Before(app, disc, now)
      ensures OpKind(op) in {ConfigMap, Secret, ServiceAccount, SecretStore, ExternalSecret}
    {
      var i := InFlatten(segs, op);
      SegmentsAreProper(app, disc, now, i);
      assert Proper(app, i, op);
    }
  }

  lemma {:induction false} KindsLater(app: App, disc: Discovery, now: int)
    ensures forall op :: op in Later(app, disc, now) ==>
              OpKind(op) in {Service, Pvc, Middleware, Ingress, Hpa, ServiceMonitor}
  {
    var segs := Segments(app, disc, now)[DEPLOY_STEP + 1..];
    forall op | op in Later(app, disc, now)
      ensures OpKind(op) in {Service, Pvc, Middleware, Ingress, Hpa, ServiceMonitor}
    {
      var i := InFlatten(segs, op);
      SegmentsAreProper(app, disc, now, i + DEPLOY_STEP + 1);
      assert Proper(app, i + DEPLOY_STEP + 1, op);
    }
  }

  lemma {:induction false} SplitAt(segs: seq<seq<Op>>, i: nat)
    requires i < |segs|
    ensures Flatten(segs) == Flatten(segs[..i]) + (segs[i] + Flatten(segs[i + 1..]))
  {
    assert segs == segs[..i] + segs[i..];
    FlattenAppend(segs[..i], segs[i..]);
    assert segs[i..][1..] == segs[i + 1..];
  }

  lemma {:induction false} ProgramAroundDeploy(app: App, disc: Discovery, now: int)
    requires !app.spec.paused
    ensures Program(app, disc, now) == Before(app, disc, now) + ([DeployOp(app)] + Later(app, disc, now))
  {
    var segs := Segments(app, disc, now);
    SplitAt(segs, DEPLOY_STEP);
    assert segs[DEPLOY_STEP] == StepOps(app, disc, now, DEPLOY_STEP);
  }

  lemma {:induction false} UntouchedSlot(app: App, ops: seq<Op>, s: Objs, k: Key)
    requires Avoids(ops, k.kind) && RunAll(app, ops, s).ok
    ensures Get(RunAll(app, ops, s).objs, k) == Get(s, k)
  {
    forall op | op in ops
      ensures Plain(op, k.kind)
    {
    }
    RunSlots(app, ops, s, k);
    FoldAvoids(app, ops, k, Get(s, k));
  }

  /** An operation that writes Deployments, between others that touch neither Deployments before it nor
      Deployments and Secrets after it. */
  lemma {:induction false} AroundOne(app: App, before: seq<Op>, op: Op, later: seq<Op>, s: Objs)
    requires op.Apply? && op.key.kind == Deployment
    requires Avoids(before, Deployment) && Avoids(later, Deployment) && Avoids(later, Secret)
    requires RunAll(app, before + ([op] + later), s).ok
    ensures var t := RunAll(app, before + ([op] + later), s).objs;
            Get(t, op.key) == Some(Merge(app, Deployment, Get(s, op.key), Resolve(op.want, Synced(app, t)))) &&
            forall k: Key :: k.kind == Deployment && k != op.key ==> Get(t, k) == Get(s, k)
  {
    RunAppend(app, before, [op] + later, s);
    var m := RunAll(app, before, s).objs;
    assert ([op] + later)[1..] == later;
    var d := Exec(app, op, m).objs;
    var t := RunAll(app, before + ([op] + later), s).objs;
    forall k: Key | k.kind == Deployment
      ensures Get(m, k) == Get(s, k) && Get(t, k) == Get(d, k)
    {
      UntouchedSlot(app, before, s, k);
      UntouchedSlot(app, later, d, k);
      ExecSlots(app, op, m, k);
    }
    forall k | k in SyncedKeys(app)
      ensures Get(t, k) == Get(m, k)
    {
      UntouchedSlot(app, later, d, k);
      ExecSlots(app, op, m, k);
    }
    SyncedFrame(app, t, m);
  }

  /** After a run the Deployment is the rendered one merged over what was there, carrying the hash
      input of exactly the synced Secrets in the store. */
  lemma {:induction false} FinalDeployment(app: App, disc: Discovery, now: int, s: Objs)
    requires !app.spec.paused && RunAll(app, Program(app, disc, now), s).ok
    ensures var t := RunAll(app, Program(app, disc, now), s).objs;
            var kd := Key(Deployment, app.ns, app.name);
            Get(t, kd) == Some(Merge(app, Deployment, Get(s, kd), Resolve(DeployOp(app).want, Synced(app, t))))
    ensures forall k: Key :: k.kind == Deployment && k != Key(Deployment, app.ns, app.name) ==>
              Get(RunAll(app, Program(app, disc, now), s).objs, k) == Get(s, k)
  {
    ProgramAroundDeploy(app, disc, now);
    KindsBefore(app, disc, now);
    KindsLater(app, disc, now);
    AroundOne(app, Before(app, disc, now), DeployOp(app), Later(app, disc, now), s);
  }

  lemma {:induction false} SecondRunSlot(app: App, disc: Discovery, now: int, later: int, s: Objs, k: Key)
    requires !app.spec.paused && RunAll(app, Program(app, disc, now), s).ok
    requires k.kind != Deployment
    requires RunAll(app, Program(app, disc, later), RunAll(app, Program(app, disc, now), s).objs).ok
    ensures var t := RunAll(app, Program(app, disc, now), s).objs;
            var u := RunAll(app, Program(app, disc, later), t).objs;
            SameButNudge(Get(u, k), Get(t, k)) && (k.kind == Secret ==> Get(u, k) == Get(t, k))
  {
    var t := RunAll(app, Program(app, disc, now), s).objs;
    FinalSlot(app, disc, now, s, k);
    FinalSlot(app, disc, later, t, k);
    var ops := StepOps(app, disc, now, StepOf(k.kind));
    assert ops == StepOps(app, disc, later, StepOf(k.kind));
    var own := Fold(app, ops, k, Get(s, k)).slot;
    FoldBare(app, ops, k, own, Get(t, k));
    StepTwice(app, disc, now, k, Get(s, k));
    assert Settles(app, ops, k, Get(s, k));
  }

  lemma {:induction false} SecondRunDeployment(app: App, disc: Discovery, now: int, later: int, s: Objs, k: Key)
    requires !app.spec.paused && RunAll(app, Program(app, disc, now), s).ok
    requires k.kind == Deployment
    requires RunAll(app, Program(app, disc, later), RunAll(app, Program(app, disc, now), s).objs).ok
    ensures var t := RunAll(app, Program(app, disc, now), s).objs;
            Get(RunAll(app, Program(app, disc, later), t).objs, k) == Get(t, k)
  {
    var t := RunAll(app, Program(app, disc, now), s).objs;
    var u := RunAll(app, Program(app, disc, later), t).objs;
    FinalDeployment(app, disc, now, s);
    FinalDeployment(app, disc, later, t);
    forall j | j in SyncedKeys(app)
      ensures Get(u, j) == Get(t, j)
    {
      SecondRunSlot(app, disc, now, later, s, j);
    }
    SyncedFrame(app, u, t);
    var kd := Key(Deployment, app.ns, app.name);
    var want := Resolve(DeployOp(app).want, Synced(app, t));
    MergeTwice(app, Get(s, kd), want);
  }

  lemma {:induction false} MergeTwice(app: App, cur: Slot, want: Obj)
    ensures Merge(app, Deployment, Some(Merge(app, Deployment, cur, want)), want) == Merge(app, Deployment, cur, want)
  {
  }

  /** Fixpoint: once a run has succeeded and nobody else acts, a run of the same spec succeeds again
      and leaves every object of the cluster as it was, the nudge annotation aside. */
  lemma {:induction false} SecondRunIsQuiet(app: App, disc: Discovery, now: int, later: int, s: Objs)
    requires !app.spec.paused && RunAll(app, Program(app, disc, now), s).ok
    ensures var t := RunAll(app, Program(app, disc, now), s).objs;
            var u := RunAll(app, Program(app, disc, later), t);
            u.ok && forall k :: SameButNudge(Get(u.objs, k), Get(t, k))
  {
    var t := RunAll(app, Program(app, disc, now), s).objs;
    SecondRunSucceeds(app, disc, now, later, s);
    forall k
      ensures SameButNudge(Get(RunAll(app, Program(app, disc, later), t).objs, k), Get(t, k))
    {
      if k.kind == Deployment {
        SecondRunDeployment(app, disc, now, later, s, k);
      } else {
        SecondRunSlot(app, disc, now, later, s, k);
      }
    }
  }

  lemma {:induction false} SecondRunSucceeds(app: App, disc: Discovery, now: int, later: int, s: Objs)
    requires !app.spec.paused && RunAll(app, Program(app, disc, now), s).ok
    ensures RunAll(app, Program(app, disc, later), RunAll(app, Program(app, disc, now), s).objs).ok
  {
    var t := RunAll(app, Program(app, disc, now), s).objs;
    ProgramOrderly(app, disc, now);
    ProgramOrderly(app, disc, later);
    ClaimsUnblock(app, Program(app, disc, now), s);
    forall op | op in Program(app, disc, later) && Claims(op)
      ensures !Blocked(app, Get(t, op.key))
    {
      var same := ClaimedIsApplied(app, disc, now, op.key);
      FlattenHas(Segments(app, disc, now), StepOf(op.key.kind), same);
    }
    RunSucceeds(app, Program(app, disc, later), t);
  }

  // ----- What the pods rely on -----

  /** Whenever a run is about to write the Deployment, every ConfigMap and every inline Secret of the
      spec exists under the app's control. */
  lemma {:induction false} DeployedConfigExists(app: App, disc: Discovery, now: int, s: Objs, r: Run)
    requires !app.spec.paused
    requires Reaches(app, Start(app, disc, now, s), r)
    requires !r.failed && r.ops == [DeployOp(app)] + Later(app, disc, now)
    ensures forall cm :: cm in app.spec.configMaps ==>
              Managed(app, Get(r.objs, Key(ConfigMap, app.ns, Child(app.name, cm.name))))
    ensures forall sec :: sec in app.spec.secrets && sec.secretRef == "" ==>
              Managed(app, Get(r.objs, Key(Secret, app.ns, ResolvedSecretName(app.name, sec))))
  {
    var before, rest := Before(app, disc, now), [DeployOp(app)] + Later(app, disc, now);
    ProgramAroundDeploy(app, disc, now);
    var picks :| Steps(app, Start(app, disc, now, s), picks) == r;
    RunInside(app, s, before, rest, picks, false);
    assert RunAll(app, before, s) == Outcome(r.objs, true);
    forall k: Key | k.kind in {ConfigMap, Secret} && k.ns == app.ns && k.name in WriteNames(WritesOf(app, disc, k.kind))
      ensures Managed(app, Get(r.objs, k))
    {
      ManagedBeforeDeploy(app, disc, now, s, k);
    }
    ConfigMapsWritten(app, app.spec.configMaps);
    SecretsWritten(app, app.spec.secrets);
    forall cm | cm in app.spec.configMaps
      ensures Managed(app, Get(r.objs, Key(ConfigMap, app.ns, Child(app.name, cm.name))))
    {
      WriteNamesMean(ConfigMapWrites(app, app.spec.configMaps), Child(app.name, cm.name));
      assert ConfigMapWrite(app, cm) in WritesOf(app, disc, ConfigMap);
    }
    forall sec | sec in app.spec.secrets && sec.secretRef == ""
      ensures Managed(app, Get(r.objs, Key(Secret, app.ns, ResolvedSecretName(app.name, sec))))
    {
      WriteNamesMean(SecretWrites(app, app.spec.secrets), Child(app.name, sec.name));
      assert SecretWrite(app, sec) in WritesOf(app, disc, Secret);
    }
  }

  /** Closure of the pods over the cluster: whenever a run is about to write the Deployment, every ConfigMap
      that its template mounts and every Secret that it mounts or injects exists under the app's control,
      unless the spec only references the Secret or ESO is to sync it. */
  lemma {:induction false} PodSourcesExist(app: App, disc: Discovery, now: int, s: Objs, r: Run)
    requires !app.spec.paused
    requires Reaches(app, Start(app, disc, now, s), r)
    requires !r.failed && r.ops == [DeployOp(app)] + Later(app, disc, now)
    ensures forall v :: v in Volumes(app) && v.source.ConfigMapSource? ==>
              Managed(app, Get(r.objs, Key(ConfigMap, app.ns, v.source.configMap)))
    ensures forall v :: v in Volumes(app) && v.source.SecretSource? ==>
              Managed(app, Get(r.objs, Key(Secret, app.ns, v.source.secret))) || FromElsewhere(app, v.source.secret)
    ensures forall secret :: secret in EnvFrom(app) ==>
              Managed(app, Get(r.objs, Key(Secret, app.ns, secret))) || FromElsewhere(app, secret)
  {
    DeployedConfigExists(app, disc, now, s, r);
    forall v | v in Volumes(app) && v.source.ConfigMapSource?
      ensures Managed(app, Get(r.objs, Key(ConfigMap, app.ns, v.source.configMap)))
    {
      VolumesComeFromEntries(app, v);
      var i :| 0 <= i < |app.spec.configMaps| && v.source.configMap == Child(app.name, app.spec.configMaps[i].name);
      assert app.spec.configMaps[i] in app.spec.configMaps;
    }
    forall v | v in Volumes(app) && v.source.SecretSource?
      ensures Managed(app, Get(r.objs, Key(Secret, app.ns, v.source.secret))) || FromElsewhere(app, v.source.secret)
    {
      VolumeSecretsComeFromEntries(app, v);
      InlineExists(app, r.objs, v.source.secret);
    }
    forall secret | secret in EnvFrom(app)
      ensures Managed(app, Get(r.objs, Key(Secret, app.ns, secret))) || FromElsewhere(app, secret)
    {
      EnvSecretsComeFromEntries(app, secret);
      InlineExists(app, r.objs, secret);
    }
  }

  lemma {:induction false} InlineExists(app: App, objs: Objs, secret: string)
    requires forall sec :: sec in app.spec.secrets && sec.secretRef == "" ==>
               Managed(app, Get(objs, Key(Secret, app.ns, ResolvedSecretName(app.name, sec))))
    ensures FromInline(app, secret) ==> Managed(app, Get(objs, Key(Secret, app.ns, secret)))
  {
    if FromInline(app, secret) {
      var i :| 0 <= i < |app.spec.secrets| && app.spec.secrets[i].secretRef == "" &&
               secret == Child(app.name, app.spec.secrets[i].name);
      assert app.spec.secrets[i] in app.spec.secrets;
    }
  }

  lemma {:induction false} ManagedBeforeDeploy(app: App, disc: Discovery, now: int, s: Objs, k: Key)
    requires k.kind in {ConfigMap, Secret} && k.ns == app.ns && k.name in WriteNames(WritesOf(app, disc, k.kind))
    requires RunAll(app, Before(app, disc, now), s).ok
    ensures Managed(app, Get(RunAll(app, Before(app, disc, now), s).objs, k))
  {
    var segs, i := Segments(app, disc, now)[..DEPLOY_STEP], StepOf(k.kind);
    forall j | 0 <= j < DEPLOY_STEP
      ensures j != i ==> Avoids(segs[j], k.kind)
      ensures forall op :: op in segs[j] ==> Plain(op, k.kind)
    {
      SegmentsAreProper(app, disc, now, j);
      assert forall op :: op in segs[j] ==> Proper(app, j, op);
    }
    forall op | op in Before(app, disc, now)
      ensures Plain(op, k.kind)
    {
      var j := InFlatten(segs, op);
    }
    RunSlots(app, Before(app, disc, now), s, k);
    FoldExactly(app, segs, i, k, Get(s, k));
    PrunedSegment(app, disc, now, k.kind);
    FoldSegment(app, StepOps(app, disc, now, i), k.kind, k, Get(s, k));
  }
}
