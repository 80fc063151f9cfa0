/**
 Where a whole reconcile ends, whatever the cluster looked like before: what becomes of one object
 through a list of operations, and how the five pruned kinds converge.
 */
module Convergence {
  import opened Common
  import opened Spec
  import opened Cluster
  import opened Desired

  // ----- One slot through a list of operations -----

  /** An operation whose effect on objects of a kind does not depend on the synced Secrets. */
  predicate Plain(op: Op, kind: Kind) {
    (op.Apply? || op.Guarded?) && op.key.kind == kind ==> !op.want.body.Workload?
  }

  function Fold(app: App, ops: seq<Op>, k: Key, cur: Slot): Effect {
    if ops == [] then Left(cur)
    else
      match Touch(app, ops[0], k, cur, None)
      case Refused => Refused
      case Left(slot) => Fold(app, ops[1..], k, slot)
  }

  lemma {:induction false} RunSlots(app: App, ops: seq<Op>, s: Objs, k: Key)
    requires forall op :: op in ops ==> Plain(op, k.kind)
    ensures RunAll(app, ops, s).ok ==> Fold(app, ops, k, Get(s, k)) == Left(Get(RunAll(app, ops, s).objs, k))
  {
    if ops != [] {
      assert Plain(ops[0], k.kind);
      ExecSlots(app, ops[0], s, k);
      var r := Exec(app, ops[0], s);
      if r.ok {
        RunSlots(app, ops[1..], r.objs, k);
      }
    }
  }

  lemma {:induction false} FoldAppend(app: App, a: seq<Op>, b: seq<Op>, k: Key, cur: Slot)
    ensures Fold(app, a + b, k, cur)
            == match Fold(app, a, k, cur) case Refused => Refused case Left(slot) => Fold(app, b, k, slot)
  {
    if a == [] {
      assert a + b == b;
    } else {
      assert (a + b)[1..] == a[1..] + b;
      match Touch(app, a[0], k, cur, None)
      case Refused =>
      case Left(slot) => FoldAppend(app, a[1..], b, k, slot);
    }
  }

  // ----- Writes then prune -----

  /** The last operation of a list on a key. */
  function LastOn(ops: seq<Op>, k: Key): Option<Op> {
    if ops == [] then None
    else
      var last := ops[|ops| - 1];
      if (last.Apply? || last.Replace?) && last.key == k then Some(last) else LastOn(ops[..|ops| - 1], k)
  }

  lemma {:induction false} LastOnShape(ops: seq<Op>, k: Key)
    ensures LastOn(ops, k).Some? ==>
              LastOn(ops, k).value in ops &&
              (LastOn(ops, k).value.Apply? || LastOn(ops, k).value.Replace?) && LastOn(ops, k).value.key == k
    ensures LastOn(ops, k).None? ==> forall op :: op in ops && (op.Apply? || op.Replace?) ==> op.key != k
  {
    if ops != [] {
      LastOnShape(ops[..|ops| - 1], k);
      assert ops == ops[..|ops| - 1] + [ops[|ops| - 1]];
    }
  }

  lemma {:induction false} WriteNamesMean(ops: seq<Op>, n: string)
    ensures n in WriteNames(ops) <==> exists op :: op in ops && (op.Apply? || op.Replace?) && op.key.name == n
  {
    if ops != [] {
      WriteNamesMean(ops[1..], n);
      assert ops == [ops[0]] + ops[1..];
      if op :| op in ops && (op.Apply? || op.Replace?) && op.key.name == n {
        assert op == ops[0] || op in ops[1..];
      }
    }
  }

  /** A later write absorbs an earlier one to the same object. */
  lemma {:induction false} WriteAbsorbs(app: App, a: Op, b: Op, kind: Kind, cur: Slot)
    requires IsWrite(app, a, kind) && IsWrite(app, b, kind) && a.key == b.key
    requires Touch(app, a, a.key, cur, None).Left?
    ensures Touch(app, b, b.key, Touch(app, a, a.key, cur, None).slot, None) == Touch(app, b, b.key, cur, None)
  {
  }

  lemma {:induction false} FoldWrites(app: App, ops: seq<Op>, kind: Kind, k: Key, cur: Slot)
    requires AllWrites(app, ops, kind)
    requires Fold(app, ops, k, cur).Left?
    ensures match LastOn(ops, k)
            case None => Fold(app, ops, k, cur) == Left(cur)
            case Some(op) => Fold(app, ops, k, cur) == Touch(app, op, k, cur, None)
  {
    if ops != [] {
      var init, last := ops[..|ops| - 1], ops[|ops| - 1];
      assert ops == init + [last];
      FoldAppend(app, init, [last], k, cur);
      assert Fold(app, [last], k, Fold(app, init, k, cur).slot) ==
               Touch(app, last, k, Fold(app, init, k, cur).slot, None) by {
        assert [last][1..] == [];
      }
      FoldWrites(app, init, kind, k, cur);
      LastOnShape(init, k);
      assert last in ops && IsWrite(app, last, kind);
      if last.key == k && LastOn(init, k).Some? {
        WriteAbsorbs(app, LastOn(init, k).value, last, kind, cur);
      }
    }
  }

  /** What the operator writes of an object: everything for a replaced kind; for an object updated in
      place its labels, owner and body, and the annotations where it owns them. */
  datatype View = View(labels: map<string, string>, owner: Option<Owner>, annotations: map<string, string>, body: Body)

  function ViewOf(kind: Kind, o: Obj): View {
    View(o.labels, o.owner, if kind in {Ingress, Middleware, ExternalSecret} then o.annotations else map[], o.body)
  }

  /** A segment that writes objects of one kind and then prunes the others. */
  predicate Segment(app: App, ops: seq<Op>, kind: Kind) {
    ops != [] &&
    AllWrites(app, ops[..|ops| - 1], kind) && ops[|ops| - 1] == Prune(kind, WriteNames(ops[..|ops| - 1]))
  }

  /** The writes of a segment: the last one on a key decides it. */
  lemma {:induction false} FoldAllWrites(app: App, writes: seq<Op>, kind: Kind, k: Key, cur: Slot)
    requires AllWrites(app, writes, kind) && k.kind == kind && k.ns == app.ns
    requires Fold(app, writes, k, cur).Left?
    ensures var slot := Fold(app, writes, k, cur).slot;
            match LastOn(writes, k)
            case None => k.name !in WriteNames(writes) && slot == cur
            case Some(op) => k.name in WriteNames(writes) && op in writes && Managed(app, slot) &&
                             Left(slot) == Touch(app, op, k, cur, None) &&
                             ViewOf(kind, slot.value) == ViewOf(kind, op.want)
  {
    FoldWrites(app, writes, kind, k, cur);
    LastOnShape(writes, k);
    WriteNamesMean(writes, k.name);
    if k.name in WriteNames(writes) {
      var op :| op in writes && (op.Apply? || op.Replace?) && op.key.name == k.name;
      assert IsWrite(app, op, kind) && op.key == k;
    }
    if LastOn(writes, k).Some? {
      assert IsWrite(app, LastOn(writes, k).value, kind);
    }
  }

  lemma {:induction false} FoldSegment(app: App, ops: seq<Op>, kind: Kind, k: Key, cur: Slot)
    requires Segment(app, ops, kind) && k.kind == kind && k.ns == app.ns
    requires Fold(app, ops, k, cur).Left?
    ensures var writes, slot := ops[..|ops| - 1], Fold(app, ops, k, cur).slot;
            match LastOn(writes, k)
            case None => k.name !in WriteNames(writes) && !Managed(app, slot) &&
                         slot == if Managed(app, cur) then None else cur
            case Some(op) => k.name in WriteNames(writes) && op in writes && Managed(app, slot) &&
                             Left(slot) == Touch(app, op, k, cur, None) &&
                             ViewOf(kind, slot.value) == ViewOf(kind, op.want)
  {
    var writes, prune := ops[..|ops| - 1], ops[|ops| - 1];
    assert ops == writes + [prune];
    FoldAppend(app, writes, [prune], k, cur);
    FoldAllWrites(app, writes, kind, k, cur);
    assert [prune][1..] == [];
  }

  // ----- One slot through a whole reconcile -----

  function Bare(slot: Slot): Slot {
    match slot
    case None => None
    case Some(o) => Some(o.(nudge := None))
  }

  /** Equal except for the nudge annotation. */
  predicate SameButNudge(a: Slot, b: Slot) {
    Bare(a) == Bare(b)
  }

  predicate Avoids(ops: seq<Op>, kind: Kind) {
    forall op :: op in ops ==> OpKind(op) != kind
  }

  /** Operations that do nothing to objects of a kind beyond nudging them. */
  predicate Mild(ops: seq<Op>, kind: Kind) {
    forall op :: op in ops ==> OpKind(op) != kind || op.Nudge?
  }

  lemma {:induction false} FoldAvoids(app: App, ops: seq<Op>, k: Key, cur: Slot)
    requires Avoids(ops, k.kind)
    ensures Fold(app, ops, k, cur) == Left(cur)
  {
    if ops != [] {
      assert OpKind(ops[0]) != k.kind;
      FoldAvoids(app, ops[1..], k, cur);
    }
  }

  lemma {:induction false} FoldMild(app: App, ops: seq<Op>, k: Key, cur: Slot)
    requires Mild(ops, k.kind)
    ensures Fold(app, ops, k, cur).Left? && SameButNudge(Fold(app, ops, k, cur).slot, cur)
  {
    if ops != [] {
      assert OpKind(ops[0]) != k.kind || ops[0].Nudge?;
      FoldMild(app, ops[1..], k, Touch(app, ops[0], k, cur, None).slot);
    }
  }

  lemma {:induction false} MildFlatten(segments: seq<seq<Op>>, kind: Kind)
    requires forall i :: 0 <= i < |segments| ==> Mild(segments[i], kind)
    ensures Mild(Flatten(segments), kind)
  {
    if segments != [] {
      MildFlatten(segments[1..], kind);
      assert Mild(segments[0], kind);
    }
  }

  /** Only segment i counts for an object of a kind that the others avoid before it and at most nudge
      after it. */
  lemma {:induction false} FoldFlatten(app: App, segments: seq<seq<Op>>, i: nat, k: Key, cur: Slot)
    requires i < |segments|
    requires forall j :: 0 <= j < i ==> Avoids(segments[j], k.kind)
    requires forall j :: i < j < |segments| ==> Mild(segments[j], k.kind)
    ensures match Fold(app, segments[i], k, cur)
            case Refused => Fold(app, Flatten(segments), k, cur) == Refused
            case Left(slot) => Fold(app, Flatten(segments), k, cur).Left? &&
                               SameButNudge(Fold(app, Flatten(segments), k, cur).slot, slot)
  {
    FoldAppend(app, segments[0], Flatten(segments[1..]), k, cur);
    if i == 0 {
      MildFlatten(segments[1..], k.kind);
      if Fold(app, segments[0], k, cur).Left? {
        FoldMild(app, Flatten(segments[1..]), k, Fold(app, segments[0], k, cur).slot);
      }
    } else {
      FoldAvoids(app, segments[0], k, cur);
      FoldFlatten(app, segments[1..], i - 1, k, cur);
    }
  }

  lemma {:induction false} InFlatten(segments: seq<seq<Op>>, op: Op) returns (i: nat)
    requires op in Flatten(segments)
    ensures i < |segments| && op in segments[i]
  {
    if op in segments[0] {
      i := 0;
    } else {
      i := InFlatten(segments[1..], op);
      i := i + 1;
    }
  }

  lemma {:induction false} ProgramOps(app: App, disc: Discovery, now: int, op: Op) returns (i: nat)
    requires op in Program(app, disc, now)
    ensures i < STEPS && op in StepOps(app, disc, now, i) && Proper(app, i, op)
  {
    i := InFlatten(Segments(app, disc, now), op);
    SegmentsAreProper(app, disc, now, i);
  }

  /** The segment of one kind alone decides an object of that kind, up to the nudge. */
  lemma {:induction false} FinalSlot(app: App, disc: Discovery, now: int, s: Objs, k: Key)
    requires !app.spec.paused && k.kind != Deployment
    requires RunAll(app, Program(app, disc, now), s).ok
    ensures var own := Fold(app, StepOps(app, disc, now, StepOf(k.kind)), k, Get(s, k));
            own.Left? && SameButNudge(Get(RunAll(app, Program(app, disc, now), s).objs, k), own.slot)
    ensures k.kind !in {ExternalSecret, SecretStore} ==>
              Fold(app, StepOps(app, disc, now, StepOf(k.kind)), k, Get(s, k))
              == Left(Get(RunAll(app, Program(app, disc, now), s).objs, k))
  {
    var prog, segs, i := Program(app, disc, now), Segments(app, disc, now), StepOf(k.kind);
    forall op | op in prog
      ensures Plain(op, k.kind)
    {
      var j := ProgramOps(app, disc, now, op);
    }
    RunSlots(app, prog, s, k);
    forall j | 0 <= j < STEPS && j != i
      ensures j < i ==> Avoids(segs[j], k.kind)
      ensures Mild(segs[j], k.kind)
      ensures k.kind !in {ExternalSecret, SecretStore} ==> Avoids(segs[j], k.kind)
    {
      SegmentsAreProper(app, disc, now, j);
    }
    FoldFlatten(app, segs, i, k, Get(s, k));
    if k.kind !in {ExternalSecret, SecretStore} {
      FoldExactly(app, segs, i, k, Get(s, k));
    }
  }

  lemma {:induction false} AvoidsFlatten(segments: seq<seq<Op>>, kind: Kind)
    requires forall i :: 0 <= i < |segments| ==> Avoids(segments[i], kind)
    ensures Avoids(Flatten(segments), kind)
  {
    if segments != [] {
      AvoidsFlatten(segments[1..], kind);
      assert Avoids(segments[0], kind);
    }
  }

  lemma {:induction false} FoldExactly(app: App, segments: seq<seq<Op>>, i: nat, k: Key, cur: Slot)
    requires i < |segments|
    requires forall j :: 0 <= j < |segments| && j != i ==> Avoids(segments[j], k.kind)
    ensures Fold(app, Flatten(segments), k, cur) == Fold(app, segments[i], k, cur)
  {
    FoldAppend(app, segments[0], Flatten(segments[1..]), k, cur);
    if i == 0 {
      AvoidsFlatten(segments[1..], k.kind);
      if Fold(app, segments[0], k, cur).Left? {
        FoldAvoids(app, Flatten(segments[1..]), k, Fold(app, segments[0], k, cur).slot);
      }
    } else {
      FoldAvoids(app, segments[0], k, cur);
      FoldExactly(app, segments[1..], i - 1, k, cur);
    }
  }

  // ----- Convergence of the pruned kinds -----

  predicate Served(disc: Discovery, kind: Kind) {
    (kind == ExternalSecret ==> disc.externalSecrets) && (kind == Middleware ==> disc.middlewares.Some?)
  }

  lemma {:induction false} SegmentIntro(app: App, writes: seq<Op>, kind: Kind)
    requires AllWrites(app, writes, kind)
    ensures Segment(app, Sealed(writes, kind), kind) && Sealed(writes, kind)[..|Sealed(writes, kind)| - 1] == writes
  {
    assert Sealed(writes, kind)[..|writes|] == writes;
  }

  /** The writes of the segment of a pruned kind. */
  function WritesOf(app: App, disc: Discovery, kind: Kind): (writes: seq<Op>)
    requires kind in PRUNED && Served(disc, kind)
    ensures AllWrites(app, writes, kind)
  {
    match kind
    case ConfigMap => ConfigMapWrites(app, app.spec.configMaps)
    case Secret => SecretWrites(app, app.spec.secrets)
    case ExternalSecret => ExternalWrites(app, app.spec.externalSecrets)
    case Middleware => MiddlewareWrites(app, disc.middlewares.value, app.spec.domains)
    case Ingress => IngressWrites(app, app.spec.domains)
  }

  lemma {:induction false} ConfigMapSegment(app: App, disc: Discovery, now: int)
    ensures Segment(app, StepOps(app, disc, now, 0), ConfigMap)
    ensures StepOps(app, disc, now, 0)[..|StepOps(app, disc, now, 0)| - 1] == ConfigMapWrites(app, app.spec.configMaps)
  {
    SegmentIntro(app, ConfigMapWrites(app, app.spec.configMaps), ConfigMap);
  }

  lemma {:induction false} SecretSegment(app: App, disc: Discovery, now: int)
    ensures Segment(app, StepOps(app, disc, now, 1), Secret)
    ensures StepOps(app, disc, now, 1)[..|StepOps(app, disc, now, 1)| - 1] == SecretWrites(app, app.spec.secrets)
  {
    SegmentIntro(app, SecretWrites(app, app.spec.secrets), Secret);
  }

  lemma {:induction false} ExternalSegment(app: App, disc: Discovery, now: int)
    requires disc.externalSecrets
    ensures Segment(app, StepOps(app, disc, now, 3), ExternalSecret)
    ensures StepOps(app, disc, now, 3)[..|StepOps(app, disc, now, 3)| - 1] ==
              ExternalWrites(app, app.spec.externalSecrets)
  {
    SegmentIntro(app, ExternalWrites(app, app.spec.externalSecrets), ExternalSecret);
  }

  lemma {:induction false} MiddlewareSegment(app: App, disc: Discovery, now: int)
    requires disc.middlewares.Some?
    ensures Segment(app, StepOps(app, disc, now, 8), Middleware)
    ensures StepOps(app, disc, now, 8)[..|StepOps(app, disc, now, 8)| - 1] ==
              MiddlewareWrites(app, disc.middlewares.value, app.spec.domains)
  {
    SegmentIntro(app, MiddlewareWrites(app, disc.middlewares.value, app.spec.domains), Middleware);
  }

  lemma {:induction false} IngressSegment(app: App, disc: Discovery, now: int)
    ensures Segment(app, StepOps(app, disc, now, 9), Ingress)
    ensures StepOps(app, disc, now, 9)[..|StepOps(app, disc, now, 9)| - 1] == IngressWrites(app, app.spec.domains)
  {
    IngressOpsSegment(app);
    IngressStepOps(app, disc, now);
    SameSegment(app, StepOps(app, disc, now, 9), IngressOps(app), IngressWrites(app, app.spec.domains), Ingress);
  }

  lemma {:induction false} SameSegment(app: App, seg: seq<Op>, ops: seq<Op>, writes: seq<Op>, kind: Kind)
    requires seg == ops && Segment(app, ops, kind) && ops[..|ops| - 1] == writes
    ensures Segment(app, seg, kind) && seg[..|seg| - 1] == writes
  {
  }

  lemma {:induction false} IngressOpsSegment(app: App)
    ensures Segment(app, IngressOps(app), Ingress)
    ensures IngressOps(app)[..|IngressOps(app)| - 1] == IngressWrites(app, app.spec.domains)
  {
    SegmentIntro(app, IngressWrites(app, app.spec.domains), Ingress);
  }

  lemma {:induction false} PrunedSegment(app: App, disc: Discovery, now: int, kind: Kind)
    requires kind in PRUNED && Served(disc, kind)
    ensures var seg, writes := StepOps(app, disc, now, StepOf(kind)), WritesOf(app, disc, kind);
            Segment(app, seg, kind) && seg[..|seg| - 1] == writes
  {
    match kind
    case ConfigMap => ConfigMapSegment(app, disc, now);
    case Secret => SecretSegment(app, disc, now);
    case ExternalSecret => ExternalSegment(app, disc, now);
    case Middleware => MiddlewareSegment(app, disc, now);
    case Ingress => IngressSegment(app, disc, now);
  }

  /** The objects of a kind that carry the app's labels and are controlled by it, as written. */
  ghost function ManagedView(app: App, kind: Kind, s: Objs): map<string, View> {
    map k | k in s && k.kind == kind && k.ns == app.ns && Managed(app, Some(s[k])) :: k.name := ViewOf(kind, s[k])
  }

  lemma {:induction false} ManagedViewAt(app: App, kind: Kind, s: Objs, n: string)
    ensures var slot := Get(s, Key(kind, app.ns, n));
            if Managed(app, slot) then n in ManagedView(app, kind, s) &&
                                       ManagedView(app, kind, s)[n] == ViewOf(kind, slot.value)
            else n !in ManagedView(app, kind, s)
  {
    var v := ManagedView(app, kind, s);
    if n in v {
      var k :| k in s && k.kind == kind && k.ns == app.ns && Managed(app, Some(s[k])) && k.name == n;
      assert k == Key(kind, app.ns, n);
    }
  }

  /** After a successful reconcile an object of a pruned kind is managed exactly when the spec names it,
      and then it holds what the last entry of that name renders. */
  lemma {:induction false} Converged(app: App, disc: Discovery, now: int, s: Objs, k: Key)
    requires !app.spec.paused && k.kind in PRUNED && k.ns == app.ns && Served(disc, k.kind)
    requires RunAll(app, Program(app, disc, now), s).ok
    ensures var slot, writes := Get(RunAll(app, Program(app, disc, now), s).objs, k), WritesOf(app, disc, k.kind);
            match LastOn(writes, k)
            case None => k.name !in WriteNames(writes) && !Managed(app, slot)
            case Some(op) => k.name in WriteNames(writes) && Managed(app, slot) && op in writes &&
                             IsWrite(app, op, k.kind) && op.key == k &&
                             ViewOf(k.kind, slot.value) == ViewOf(k.kind, op.want)
  {
    PrunedSegment(app, disc, now, k.kind);
    FinalSlot(app, disc, now, s, k);
    SegmentDecides(app, StepOps(app, disc, now, StepOf(k.kind)), WritesOf(app, disc, k.kind), k, Get(s, k),
                   Get(RunAll(app, Program(app, disc, now), s).objs, k));
  }

  lemma {:induction false} SegmentDecides(app: App, seg: seq<Op>, writes: seq<Op>, k: Key, cur: Slot, slot: Slot)
    requires Segment(app, seg, k.kind) && seg[..|seg| - 1] == writes && k.ns == app.ns
    requires Fold(app, seg, k, cur).Left? && SameButNudge(slot, Fold(app, seg, k, cur).slot)
    ensures match LastOn(writes, k)
            case None => k.name !in WriteNames(writes) && !Managed(app, slot)
            case Some(op) => k.name in WriteNames(writes) && Managed(app, slot) && op in writes &&
                             IsWrite(app, op, k.kind) && op.key == k &&
                             ViewOf(k.kind, slot.value) == ViewOf(k.kind, op.want)
  {
    FoldSegment(app, seg, k.kind, k, cur);
    LastOnShape(writes, k);
  }
}
