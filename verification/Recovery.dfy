/**
 Whole-run results of the reconciler: when a run succeeds, and that an error-free run erases the
 history of earlier runs, however they were cut short.
 */
module Recovery {
  import opened Common
  import opened Spec
  import opened Pod
  import opened Cluster
  import opened Desired
  import opened Convergence

  // ----- When a run succeeds -----

  /** The names a spec claims through CreateOrUpdate. */
  function ClaimedNames(app: App, kind: Kind): set<string> {
    match kind
    case ConfigMap => WriteNames(ConfigMapWrites(app, app.spec.configMaps))
    case Secret => WriteNames(SecretWrites(app, app.spec.secrets))
    case Deployment => {app.name}
    case Service => if ServicePorts(app) == [] then {} else {app.name}
    case Pvc => if app.spec.disk.Some? then {PvcName(app.name)} else {}
    case Ingress => WriteNames(IngressWrites(app, app.spec.domains))
    case Hpa => if app.spec.autoscaling.Some? && app.spec.autoscaling.value.enabled then {app.name} else {}
    case _ => {}
  }

  predicate Claimed(app: App, k: Key) {
    k.ns == app.ns && k.name in ClaimedNames(app, k.kind)
  }

  predicate Claims(op: Op) {
    op.Apply? || op.Guarded?
  }

  lemma {:induction false} WritesClaim(app: App, ops: seq<Op>, kind: Kind)
    requires AllWrites(app, ops, kind)
    ensures forall op :: op in ops ==> op.key.ns == app.ns && op.key.kind == kind && op.key.name in WriteNames(ops)
  {
    forall op | op in ops
      ensures op.key.ns == app.ns && op.key.kind == kind && op.key.name in WriteNames(ops)
    {
      assert IsWrite(app, op, kind);
      WriteNamesMean(ops, op.key.name);
    }
  }

  lemma {:induction false} StepClaims(app: App, disc: Discovery, now: int, i: nat, op: Op)
    requires i < STEPS && op in StepOps(app, disc, now, i) && Claims(op)
    ensures Claimed(app, op.key)
  {
    SegmentsAreProper(app, disc, now, i);
    assert Proper(app, i, op);
    match op.key.kind
    case ConfigMap =>
      WritesClaim(app, ConfigMapWrites(app, app.spec.configMaps), ConfigMap);
    case Secret =>
      WritesClaim(app, SecretWrites(app, app.spec.secrets), Secret);
    case Ingress =>
      WritesClaim(app, IngressWrites(app, app.spec.domains), Ingress);
    case _ =>
  }

  lemma {:induction false} WriteOn(app: App, ops: seq<Op>, kind: Kind, n: string) returns (op: Op)
    requires AllWrites(app, ops, kind) && kind in {ConfigMap, Secret, Ingress}
    requires n in WriteNames(ops)
    ensures op in ops && Claims(op) && op.key == Key(kind, app.ns, n)
  {
    WriteNamesMean(ops, n);
    op :| op in ops && (op.Apply? || op.Replace?) && op.key.name == n;
    assert IsWrite(app, op, kind);
  }

  lemma {:induction false} ListedIsApplied(app: App, disc: Discovery, k: Key) returns (op: Op)
    requires Claimed(app, k) && k.kind in {ConfigMap, Secret, Ingress}
    ensures op in WritesOf(app, disc, k.kind) && Claims(op) && op.key == k
  {
    match k.kind
    case ConfigMap =>
      op := WriteOn(app, ConfigMapWrites(app, app.spec.configMaps), ConfigMap, k.name);
    case Secret =>
      op := WriteOn(app, SecretWrites(app, app.spec.secrets), Secret, k.name);
    case Ingress =>
      op := WriteOn(app, IngressWrites(app, app.spec.domains), Ingress, k.name);
  }

  lemma {:induction false} WritesInStep(app: App, disc: Discovery, now: int, kind: Kind, op: Op)
    requires kind in {ConfigMap, Secret, Ingress} && op in WritesOf(app, disc, kind)
    ensures op in StepOps(app, disc, now, StepOf(kind))
  {
    PrunedSegment(app, disc, now, kind);
  }

  lemma {:induction false} SingleIsApplied(app: App, disc: Discovery, now: int, k: Key) returns (op: Op)
    requires Claimed(app, k) && k.kind in {Deployment, Service, Pvc, Hpa}
    ensures StepOps(app, disc, now, StepOf(k.kind)) == [op] && Claims(op) && op.key == k
  {
    match k.kind
    case Deployment =>
      op := DeployOp(app);
    case Service =>
      op := ServiceOps(app)[0];
    case Pvc =>
      op := PvcOps(app)[0];
    case Hpa =>
      op := HpaOps(app)[0];
  }

  lemma {:induction false} ClaimedIsApplied(app: App, disc: Discovery, now: int, k: Key) returns (op: Op)
    requires Claimed(app, k)
    ensures op in StepOps(app, disc, now, StepOf(k.kind)) && Claims(op) && op.key == k
  {
    if k.kind in {ConfigMap, Secret, Ingress} {
      op := ListedIsApplied(app, disc, k);
      WritesInStep(app, disc, now, k.kind, op);
    } else {
      op := SingleIsApplied(app, disc, now, k);
    }
  }

  /** Owner uids are unique: whoever carries this app's uid is this app. */
  predicate Sane(app: App, slot: Slot) {
    slot.Some? && slot.value.owner.Some? && slot.value.owner.value.uid == app.uid ==> slot.value.owner == Some(Me(app))
  }

  /** No operation blocks a slot, and only a delete by name can unblock one. */
  lemma {:induction false} BlockedStays(app: App, op: Op, k: Key, cur: Slot, synced: Option<string>, i: nat)
    requires Proper(app, i, op)
    ensures match Touch(app, op, k, cur, synced)
            case Refused => k == op.key && Blocked(app, cur) && Claims(op)
            case Left(slot) =>
              (Blocked(app, slot) ==> Blocked(app, cur)) &&
              (Sane(app, cur) ==> Sane(app, slot)) &&
              (Sane(app, cur) && Blocked(app, cur) && k.kind in APPLIED && op != Drop(k) ==> Blocked(app, slot)) &&
              (k == OpKeyOf(op, k) && Claims(op) ==> !Blocked(app, cur))
  {
  }

  function OpKeyOf(op: Op, k: Key): Key {
    match op
    case Prune(_, _) => k
    case Sweep(_, _) => k
    case _ => op.key
  }

  ghost predicate ProperOp(app: App, op: Op) {
    exists i: nat :: Proper(app, i, op)
  }

  /** A list of proper operations in which no key is both claimed and dropped. */
  ghost predicate Orderly(app: App, ops: seq<Op>) {
    (forall op :: op in ops ==> ProperOp(app, op)) &&
    (forall a, b :: a in ops && b in ops && Claims(a) && b.Drop? ==> a.key != b.key)
  }

  lemma {:induction false} RunSucceeds(app: App, ops: seq<Op>, s: Objs)
    requires Orderly(app, ops)
    ensures (forall op :: op in ops && Claims(op) ==> !Blocked(app, Get(s, op.key))) ==> RunAll(app, ops, s).ok
    ensures (forall k :: Sane(app, Get(s, k))) && RunAll(app, ops, s).ok
            ==> forall op :: op in ops && Claims(op) && op.key.kind in APPLIED ==> !Blocked(app, Get(s, op.key))
  {
    if ops != [] {
      var op, r := ops[0], Exec(app, ops[0], s);
      assert op in ops && ProperOp(app, op);
      var i: nat :| Proper(app, i, op);
      assert Orderly(app, ops[1..]);
      forall k
        ensures r.ok ==> (Blocked(app, Get(r.objs, k)) ==> Blocked(app, Get(s, k)))
        ensures r.ok && Sane(app, Get(s, k)) ==> Sane(app, Get(r.objs, k))
        ensures r.ok && Sane(app, Get(s, k)) && Blocked(app, Get(s, k)) && k.kind in APPLIED && op != Drop(k)
                ==> Blocked(app, Get(r.objs, k))
      {
        ExecSlots(app, op, s, k);
        BlockedStays(app, op, k, Get(s, k), Synced(app, s), i);
      }
      if Claims(op) {
        ExecSlots(app, op, s, op.key);
        BlockedStays(app, op, op.key, Get(s, op.key), Synced(app, s), i);
      }
      if r.ok {
        RunSucceeds(app, ops[1..], r.objs);
        assert ops == [op] + ops[1..];
      } else {
        ExecSlots(app, op, s, op.key);
      }
    }
  }

  lemma {:induction false} ProgramOrderly(app: App, disc: Discovery, now: int)
    ensures Orderly(app, Program(app, disc, now))
    ensures forall op :: op in Program(app, disc, now) && Claims(op) ==> Claimed(app, op.key) && op.key.kind in APPLIED
  {
    var prog := Program(app, disc, now);
    forall op | op in prog
      ensures ProperOp(app, op)
      ensures Claims(op) ==> Claimed(app, op.key) && op.key.kind in APPLIED
    {
      var i := ProgramOps(app, disc, now, op);
      if Claims(op) {
        StepClaims(app, disc, now, i, op);
      }
    }
    forall a, b | a in prog && b in prog && Claims(a) && b.Drop?
      ensures a.key != b.key
    {
      var i := ProgramOps(app, disc, now, a);
      var j := ProgramOps(app, disc, now, b);
      if a.key == b.key {
        assert i == j;
        DropIsAlone(app, disc, now, j, b);
      }
    }
  }

  lemma {:induction false} DropIsAlone(app: App, disc: Discovery, now: int, i: nat, op: Op)
    requires i < STEPS && op in StepOps(app, disc, now, i) && op.Drop?
    ensures StepOps(app, disc, now, i) == [op]
  {
    SegmentsAreProper(app, disc, now, i);
  }

  lemma {:induction false} FlattenHas(segments: seq<seq<Op>>, i: nat, op: Op)
    requires i < |segments| && op in segments[i]
    ensures op in Flatten(segments)
  {
    if i > 0 {
      FlattenHas(segments[1..], i - 1, op);
    }
  }

  /** A reconcile succeeds exactly when no object it claims is controlled by another owner. */
  lemma {:induction false} SucceedsIffUnblocked(app: App, disc: Discovery, now: int, s: Objs)
    requires !app.spec.paused
    requires forall k :: Sane(app, Get(s, k))
    ensures RunAll(app, Program(app, disc, now), s).ok <==> forall k :: Claimed(app, k) ==> !Blocked(app, Get(s, k))
  {
    ProgramOrderly(app, disc, now);
    RunSucceeds(app, Program(app, disc, now), s);
    if RunAll(app, Program(app, disc, now), s).ok {
      forall k | Claimed(app, k)
        ensures !Blocked(app, Get(s, k))
      {
        var op := ClaimedIsApplied(app, disc, now, k);
        FlattenHas(Segments(app, disc, now), StepOf(k.kind), op);
      }
    }
  }

  // ----- Interrupted runs -----

  /** An earlier run of the same AppDefinition with another spec, cut short after |picks| calls; a cut
      run covers transient API errors and crashes alike. */
  datatype Episode = Episode(app: App, disc: Discovery, now: int, picks: seq<string>)

  predicate SameApp(a: App, b: App) {
    a.name == b.name && a.ns == b.ns && a.uid == b.uid
  }

  ghost function Start(app: App, disc: Discovery, now: int, s: Objs): Run {
    Run(s, Program(app, disc, now), false, false)
  }

  ghost function After(history: seq<Episode>, s: Objs): Objs {
    if history == [] then s
    else
      var e, t := history[|history| - 1], After(history[..|history| - 1], s);
      Steps(e.app, Start(e.app, e.disc, e.now, t), e.picks).objs
  }

  /** What a run may still have in hand. */
  ghost predicate InHand(app: App, op: Op) {
    (op.Sweep? && op.kind in PRUNED) || ProperOp(app, op) || (op.Apply? && ProperOp(app, Guarded(op.key, op.want)))
  }

  /** The effect of a single call on a slot is that of the operation, of a part of its deletions, or none. */
  lemma {:induction false} StepSlots(app: App, r: Run, pick: string, k: Key)
    requires r.ops != []
    ensures var now := Get(Step(app, r, pick).objs, k);
            now == Get(r.objs, k) || Left(now) == Touch(app, r.ops[0], k, Get(r.objs, k), Synced(app, r.objs))
  {
    var op := r.ops[0];
    match op
    case Prune(_, _) =>
    case Sweep(kind, names) =>
    case Guarded(_, _) =>
    case _ => ExecSlots(app, op, r.objs, k);
  }

  lemma {:induction false} StepsNeverBlock(app: App, r: Run, picks: seq<string>)
    requires forall op :: op in r.ops ==> InHand(app, op)
    ensures forall op :: op in Steps(app, r, picks).ops ==> InHand(app, op)
    ensures forall k :: Blocked(app, Get(Steps(app, r, picks).objs, k)) ==> Blocked(app, Get(r.objs, k))
  {
    if picks != [] {
      var init, pick := picks[..|picks| - 1], picks[|picks| - 1];
      StepsNeverBlock(app, r, init);
      var m := Steps(app, r, init);
      if m.ops != [] {
        assert InHand(app, m.ops[0]);
        forall k
          ensures Blocked(app, Get(Step(app, m, pick).objs, k)) ==> Blocked(app, Get(m.objs, k))
        {
          StepSlots(app, m, pick, k);
        }
        forall op | op in Step(app, m, pick).ops
          ensures InHand(app, op)
        {
          if op !in m.ops[1..] && m.ops[0].Guarded? {
            assert m.ops[0] == Guarded(op.key, op.want);
          }
        }
      }
    }
  }

  lemma {:induction false} HistoryNeverBlocks(app: App, history: seq<Episode>, s: Objs)
    requires forall e :: e in history ==> SameApp(e.app, app)
    ensures forall k :: Blocked(app, Get(After(history, s), k)) ==> Blocked(app, Get(s, k))
  {
    if history != [] {
      var init, e := history[..|history| - 1], history[|history| - 1];
      HistoryNeverBlocks(app, init, s);
      var t := After(init, s);
      ProgramOrderly(e.app, e.disc, e.now);
      assert e in history;
      StepsNeverBlock(e.app, Start(e.app, e.disc, e.now, t), e.picks);
      assert forall k :: Blocked(app, Get(t, k)) <==> Blocked(e.app, Get(t, k));
    }
  }

  /** Two stores hold the same managed object, or none, under a name. */
  predicate SameManaged(app: App, kind: Kind, a: Slot, b: Slot) {
    (Managed(app, a) <==> Managed(app, b)) && (Managed(app, a) ==> ViewOf(kind, a.value) == ViewOf(kind, b.value))
  }

  lemma {:induction false} SameViews(app: App, kind: Kind, a: Objs, b: Objs)
    requires forall n :: SameManaged(app, kind, Get(a, Key(kind, app.ns, n)), Get(b, Key(kind, app.ns, n)))
    ensures ManagedView(app, kind, a) == ManagedView(app, kind, b)
  {
    var v, w := ManagedView(app, kind, a), ManagedView(app, kind, b);
    forall n
      ensures n in v <==> n in w
      ensures n in v ==> v[n] == w[n]
    {
      ManagedViewAt(app, kind, a, n);
      ManagedViewAt(app, kind, b, n);
      assert SameManaged(app, kind, Get(a, Key(kind, app.ns, n)), Get(b, Key(kind, app.ns, n)));
    }
    assert v.Keys == w.Keys;
  }

  lemma {:induction false} SameSlotEveryRun(app: App, disc: Discovery, now: int, s: Objs, later: int, s': Objs, k: Key)
    requires !app.spec.paused && k.kind in PRUNED && k.ns == app.ns && Served(disc, k.kind)
    requires RunAll(app, Program(app, disc, now), s).ok && RunAll(app, Program(app, disc, later), s').ok
    ensures SameManaged(app, k.kind, Get(RunAll(app, Program(app, disc, now), s).objs, k),
                        Get(RunAll(app, Program(app, disc, later), s').objs, k))
  {
    Converged(app, disc, now, s, k);
    Converged(app, disc, later, s', k);
  }

  /** An error-free run leaves the managed objects of a pruned kind exactly as a run on an empty
      cluster does: names, and every field the operator writes. Neither the store it starts from nor
      the clock matters. */
  lemma {:induction false} HistoryIndependent(app: App, disc: Discovery, now: int, s: Objs, later: int, kind: Kind)
    requires !app.spec.paused && kind in PRUNED && Served(disc, kind)
    requires RunAll(app, Program(app, disc, now), s).ok
    ensures var scratch := RunAll(app, Program(app, disc, later), map[]);
            scratch.ok && ManagedView(app, kind, RunAll(app, Program(app, disc, now), s).objs) ==
                            ManagedView(app, kind, scratch.objs)
  {
    ProgramOrderly(app, disc, later);
    RunSucceeds(app, Program(app, disc, later), map[]);
    forall n
      ensures SameManaged(app, kind, Get(RunAll(app, Program(app, disc, now), s).objs, Key(kind, app.ns, n)),
                          Get(RunAll(app, Program(app, disc, later), map[]).objs, Key(kind, app.ns, n)))
    {
      SameSlotEveryRun(app, disc, now, s, later, map[], Key(kind, app.ns, n));
    }
    SameViews(app, kind, RunAll(app, Program(app, disc, now), s).objs,
              RunAll(app, Program(app, disc, later), map[]).objs);
  }

  /** Crash recovery: after any history of runs on other specs, each cut short after any call, one
      uninterrupted run succeeds if its names were free to begin with, and then nothing of the history
      is left in the managed objects. */
  lemma {:induction false} CrashRecovery(app: App, disc: Discovery, now: int, history: seq<Episode>, s: Objs, to: Run,
                                         later: int, kind: Kind)
    requires !app.spec.paused && kind in PRUNED && Served(disc, kind)
    requires forall e :: e in history ==> SameApp(e.app, app)
    requires forall k :: Claimed(app, k) ==> !Blocked(app, Get(s, k))
    requires Reaches(app, Start(app, disc, now, After(history, s)), to) && to.ops == []
    ensures !to.failed
    ensures ManagedView(app, kind, to.objs) ==
              ManagedView(app, kind, RunAll(app, Program(app, disc, later), map[]).objs)
  {
    var t := After(history, s);
    HistoryNeverBlocks(app, history, s);
    ProgramOrderly(app, disc, now);
    RunSucceeds(app, Program(app, disc, now), t);
    CompleteRun(app, t, Program(app, disc, now), false, to);
    HistoryIndependent(app, disc, now, t, later, kind);
  }
}
