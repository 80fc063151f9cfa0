/**
 Two apps of one namespace whose domains share an Ingress name (Names.IngressNamesAcrossApps says which do):
 internal/controller/reconcile_middleware.go replaces whatever has the name,
 internal/controller/reconcile_ingress.go gives way to another controller.
 */
module Contention {
  import opened Common
  import opened Names
  import opened Chain
  import opened Spec
  import opened Cluster
  import opened Desired
  import opened Convergence
  import opened Recovery
  import opened Interleaving
  import opened Fixpoint

  const MIDDLEWARE_STEP := 8

  /** The reconcile up to its Middlewares, and from its Ingresses on. */
  ghost function Head(app: App, disc: Discovery, now: int): seq<Op> {
    Flatten(Segments(app, disc, now)[..MIDDLEWARE_STEP + 1])
  }

  ghost function Tail(app: App, disc: Discovery, now: int): seq<Op> {
    Flatten(Segments(app, disc, now)[MIDDLEWARE_STEP + 1..])
  }

  lemma {:induction false} HeadAndTail(app: App, disc: Discovery, now: int)
    requires !app.spec.paused
    ensures Program(app, disc, now) == Head(app, disc, now) + Tail(app, disc, now)
    ensures Avoids(Tail(app, disc, now), Middleware)
  {
    var segs := Segments(app, disc, now);
    var tail := segs[MIDDLEWARE_STEP + 1..];
    assert segs == segs[..MIDDLEWARE_STEP + 1] + tail;
    FlattenAppend(segs[..MIDDLEWARE_STEP + 1], tail);
    forall i | 0 <= i < |tail|
      ensures Avoids(tail[i], Middleware)
    {
      SegmentsAreProper(app, disc, now, i + MIDDLEWARE_STEP + 1);
    }
    AvoidsFlatten(tail, Middleware);
  }

  /** Operations on other kinds leave a slot alone, whether or not they go through. */
  lemma {:induction false} AvoidedSlot(app: App, ops: seq<Op>, s: Objs, k: Key)
    requires Avoids(ops, k.kind)
    ensures Get(RunAll(app, ops, s).objs, k) == Get(s, k)
  {
    if ops != [] {
      assert OpKind(ops[0]) != k.kind;
      ExecSlots(app, ops[0], s, k);
      if Exec(app, ops[0], s).ok {
        AvoidedSlot(app, ops[1..], Exec(app, ops[0], s).objs, k);
      }
    }
  }

  /** The Middleware step alone decides a Middleware. */
  lemma {:induction false} HeadFold(app: App, disc: Discovery, now: int, s: Objs, k: Key)
    requires !app.spec.paused && k.kind == Middleware && RunAll(app, Head(app, disc, now), s).ok
    ensures Fold(app, StepOps(app, disc, now, MIDDLEWARE_STEP), k, Get(s, k)) ==
              Left(Get(RunAll(app, Head(app, disc, now), s).objs, k))
  {
    var segs := Segments(app, disc, now)[..MIDDLEWARE_STEP + 1];
    forall i | 0 <= i < |segs| && i != MIDDLEWARE_STEP
      ensures Avoids(segs[i], Middleware)
    {
      SegmentsAreProper(app, disc, now, i);
    }
    FoldExactly(app, segs, MIDDLEWARE_STEP, k, Get(s, k));
    HeadIsPlain(app, disc, now);
    RunSlots(app, Head(app, disc, now), s, k);
  }

  lemma {:induction false} HeadIsPlain(app: App, disc: Discovery, now: int)
    requires !app.spec.paused
    ensures forall op :: op in Head(app, disc, now) ==> Plain(op, Middleware)
  {
    HeadAndTail(app, disc, now);
    forall op | op in Head(app, disc, now)
      ensures Plain(op, Middleware)
    {
      var i := ProgramOps(app, disc, now, op);
    }
  }

  lemma {:induction false} HopIsWritten(app: App, legacy: bool, d: DomainSpec, kind: MiddlewareKind)
    requires d in app.spec.domains && Wants(d, kind)
    ensures HopKey(app, d, kind).name in WriteNames(MiddlewareWrites(app, legacy, app.spec.domains))
  {
    EnabledKindsInChainOrder(d);
    MiddlewaresWritten(app, legacy, app.spec.domains);
    assert HopWrite(app, legacy, d, kind) in MiddlewareWrites(app, legacy, app.spec.domains);
    WriteNamesMean(MiddlewareWrites(app, legacy, app.spec.domains), HopKey(app, d, kind).name);
  }

  lemma {:induction false} TakenInHead(app: App, disc: Discovery, now: int, s: Objs, k: Key)
    requires !app.spec.paused && disc.middlewares.Some? && RunAll(app, Head(app, disc, now), s).ok
    requires k.kind == Middleware && k.ns == app.ns && k.name in WriteNames(WritesOf(app, disc, Middleware))
    ensures Managed(app, Get(RunAll(app, Head(app, disc, now), s).objs, k))
  {
    HeadFold(app, disc, now, s, k);
    PrunedSegment(app, disc, now, Middleware);
    FoldSegment(app, StepOps(app, disc, now, MIDDLEWARE_STEP), Middleware, k, Get(s, k));
  }

  /** Once the Middleware step is done, the Middleware of a domain is this app's, even if the rest of the reconcile
      is refused, and whoever controlled it before. */
  lemma {:induction false} MiddlewareTaken(app: App, disc: Discovery, now: int, s: Objs, d: DomainSpec,
                                           kind: MiddlewareKind)
    requires !app.spec.paused && disc.middlewares.Some? && RunAll(app, Head(app, disc, now), s).ok
    requires d in app.spec.domains && Wants(d, kind)
    ensures Managed(app, Get(RunAll(app, Program(app, disc, now), s).objs, HopKey(app, d, kind)))
  {
    HopIsWritten(app, disc.middlewares.value, d, kind);
    TakenInHead(app, disc, now, s, HopKey(app, d, kind));
    HeadAndTail(app, disc, now);
    RunAppend(app, Head(app, disc, now), Tail(app, disc, now), s);
    AvoidedSlot(app, Tail(app, disc, now), RunAll(app, Head(app, disc, now), s).objs, HopKey(app, d, kind));
  }

  lemma {:induction false} NameOfWrite(ops: seq<Op>, op: Op, k: Key)
    requires op in ops && op.Apply? && op.key == k
    ensures k.name in WriteNames(ops)
  {
    WriteNamesMean(ops, k.name);
  }

  lemma {:induction false} IngressWriteIn(app: App, ds: seq<DomainSpec>, d: DomainSpec)
    requires d in ds
    ensures IngressWrite(app, d) in IngressWrites(app, ds)
  {
    var i: nat :| i < |ds| && ds[i] == d;
    assert IngressWrites(app, ds)[i] == IngressWrite(app, ds[i]);
  }

  lemma {:induction false} IngressIsWritten(app: App, disc: Discovery, d: DomainSpec, k: Key)
    requires d in app.spec.domains && k == IngressKey(app, d)
    ensures k.kind == Ingress && k.ns == app.ns && k.name in WriteNames(WritesOf(app, disc, Ingress))
  {
    IngressWriteIn(app, app.spec.domains, d);
    NameOfWrite(IngressWrites(app, app.spec.domains), IngressWrite(app, d), k);
  }

  /** A step that went through was refused none of its writes, and controls what they name. */
  lemma {:induction false} ClaimHeld(app: App, seg: seq<Op>, kind: Kind, k: Key, cur: Slot)
    requires Segment(app, seg, kind) && kind in {ConfigMap, Secret, Ingress} && k.kind == kind && k.ns == app.ns
    requires Fold(app, seg, k, cur).Left? && k.name in WriteNames(seg[..|seg| - 1])
    ensures !Blocked(app, cur)
    ensures Fold(app, seg, k, cur).slot.Some? && Fold(app, seg, k, cur).slot.value.owner == Some(Me(app))
  {
    var writes := seg[..|seg| - 1];
    FoldSegment(app, seg, kind, k, cur);
    LastOnShape(writes, k);
    assert IsWrite(app, LastOn(writes, k).value, kind);
  }

  lemma {:induction false} IngressHeld(app: App, disc: Discovery, now: int, s: Objs, k: Key)
    requires !app.spec.paused && RunAll(app, Program(app, disc, now), s).ok
    requires k.kind == Ingress && k.ns == app.ns && k.name in WriteNames(WritesOf(app, disc, Ingress))
    ensures !Blocked(app, Get(s, k))
    ensures k in RunAll(app, Program(app, disc, now), s).objs
    ensures RunAll(app, Program(app, disc, now), s).objs[k].owner == Some(Me(app))
  {
    FinalSlot(app, disc, now, s, k);
    PrunedSegment(app, disc, now, Ingress);
    ClaimHeld(app, StepOps(app, disc, now, StepOf(Ingress)), Ingress, k, Get(s, k));
  }

  lemma {:induction false} HeldByAnother(a: App, b: App, t: Objs, k: Key)
    requires a.name != b.name && k in t && t[k].owner == Some(Me(a))
    ensures Blocked(b, Get(t, k))
  {
  }

  lemma {:induction false} SharedIngressBlocks(a: App, discA: Discovery, before: int, s: Objs, b: App, discB: Discovery,
                                               now: int, k: Key)
    requires !a.spec.paused && !b.spec.paused && a.ns == b.ns && a.name != b.name
    requires k.kind == Ingress && k.ns == a.ns
    requires k.name in WriteNames(WritesOf(a, discA, Ingress)) && k.name in WriteNames(WritesOf(b, discB, Ingress))
    requires RunAll(a, Program(a, discA, before), s).ok
    ensures !RunAll(b, Program(b, discB, now), RunAll(a, Program(a, discA, before), s).objs).ok
  {
    var t := RunAll(a, Program(a, discA, before), s).objs;
    IngressHeld(a, discA, before, s, k);
    HeldByAnother(a, b, t, k);
    if RunAll(b, Program(b, discB, now), t).ok {
      IngressHeld(b, discB, now, t, k);
    }
  }

  lemma {:induction false} SharedKeys(a: App, d: DomainSpec, b: App, e: DomainSpec, kind: MiddlewareKind)
    requires a.ns == b.ns && DomainIngressName(a.name, d.name, d.path) == DomainIngressName(b.name, e.name, e.path)
    ensures IngressKey(a, d) == IngressKey(b, e) && HopKey(a, d, kind) == HopKey(b, e, kind)
  {
    MiddlewareNamesAgree(a.name, d.name, d.path, kind, b.name, e.name, e.path, kind);
  }

  lemma {:induction false} OneManager(a: App, b: App, slot: Slot)
    requires a.uid != b.uid && Managed(b, slot)
    ensures !Managed(a, slot)
  {
  }

  // ----- Two apps that claim one Ingress -----

  /** An operation that reconciles Ingress k in place or keeps away from it. */
  predicate Steady(app: App, op: Op, k: Key) {
    match op
    case Prune(kind, keep) => kind == k.kind ==> k.name in keep
    case Sweep(kind, names) => kind == k.kind ==> k.name !in names
    case _ => op.key == k ==> op.Apply?
  }

  predicate ClaimsKey(op: Op, k: Key) {
    op.Apply? && op.key == k
  }

  /** Once a run that has not failed has no claim of k left, the object is its app's. */
  ghost predicate Holding(app: App, r: Run, k: Key) {
    !r.failed && (forall op :: op in r.ops ==> !ClaimsKey(op, k)) ==> k in r.objs && r.objs[k].owner == Some(Me(app))
  }

  ghost predicate AllSteady(app: App, r: Run, k: Key) {
    (forall op :: op in r.ops ==> Steady(app, op, k)) && (r.failed ==> r.ops == [])
  }

  lemma {:induction false} StepStaysSteady(app: App, r: Run, pick: string, k: Key)
    requires AllSteady(app, r, k)
    ensures AllSteady(app, Step(app, r, pick), k)
  {
    if r.ops != [] {
      assert Steady(app, r.ops[0], k);
      if r.ops[0].Prune? {
        forall n | n in ToPrune(app, r.objs, r.ops[0].kind, r.ops[0].keep)
          ensures n !in r.ops[0].keep
        {
        }
      }
    }
  }

  /** A call other than a claim of k leaves the object alone. */
  lemma {:induction false} SteadySlot(app: App, r: Run, pick: string, k: Key)
    requires AllSteady(app, r, k) && r.ops != [] && !ClaimsKey(r.ops[0], k)
    ensures Get(Step(app, r, pick).objs, k) == Get(r.objs, k)
  {
    assert Steady(app, r.ops[0], k);
    if !r.ops[0].Prune? {
      StepSlots(app, r, pick, k);
    }
  }

  /** A call of one app keeps what both hold: where the other has claimed k, a claim is refused. */
  lemma {:induction false} StepHolds(app: App, r: Run, pick: string, other: App, q: Run, k: Key)
    requires AllSteady(app, r, k) && Holding(app, r, k) && app.name != other.name
    requires q.objs == r.objs && Holding(other, q, k)
    ensures Holding(app, Step(app, r, pick), k)
    ensures Holding(other, q.(objs := Step(app, r, pick).objs), k)
  {
    if r.ops != [] {
      assert r.ops == [r.ops[0]] + r.ops[1..];
      if ClaimsKey(r.ops[0], k) {
        ExecSlots(app, r.ops[0], r.objs, k);
      } else {
        SteadySlot(app, r, pick, k);
        forall op | op in r.ops && ClaimsKey(op, k)
          ensures op in Step(app, r, pick).ops || Step(app, r, pick).failed
        {
        }
      }
    }
  }

  ghost predicate BothHold(a: App, b: App, d: Duo, k: Key) {
    d.left.objs == d.right.objs && AllSteady(a, d.left, k) && AllSteady(b, d.right, k) &&
    Holding(a, d.left, k) && Holding(b, d.right, k)
  }

  lemma {:induction false} PlayHolds(a: App, b: App, d: Duo, turns: seq<Turn>, k: Key)
    requires BothHold(a, b, d, k) && a.name != b.name
    ensures BothHold(a, b, Play(a, b, d, turns), k)
  {
    if turns != [] {
      PlayHolds(a, b, d, turns[..|turns| - 1], k);
      var m, turn := Play(a, b, d, turns[..|turns| - 1]), turns[|turns| - 1];
      if turn.first {
        StepStaysSteady(a, m.left, turn.pick, k);
        StepHolds(a, m.left, turn.pick, b, m.right, k);
      } else {
        StepStaysSteady(b, m.right, turn.pick, k);
        StepHolds(b, m.right, turn.pick, a, m.left, k);
      }
    }
  }

  lemma {:induction false} SegmentSteady(app: App, seg: seq<Op>, k: Key, op: Op)
    requires Segment(app, seg, k.kind) && k.kind == Ingress && k.name in WriteNames(seg[..|seg| - 1]) && op in seg
    ensures Steady(app, op, k)
  {
    assert seg == seg[..|seg| - 1] + [seg[|seg| - 1]];
  }

  /** A program claims the Ingress of each of its domains and keeps away from it otherwise. */
  lemma {:induction false} IngressOpsSteady(app: App, disc: Discovery, now: int, k: Key, op: Op)
    requires k.kind == Ingress && k.name in WriteNames(WritesOf(app, disc, Ingress)) && op in Program(app, disc, now)
    ensures Steady(app, op, k)
  {
    var i := ProgramOps(app, disc, now, op);
    if OpKind(op) == Ingress {
      PrunedSegment(app, disc, now, Ingress);
      SegmentSteady(app, StepOps(app, disc, now, StepOf(Ingress)), k, op);
    }
  }

  lemma {:induction false} StartHolds(app: App, disc: Discovery, now: int, s: Objs, k: Key)
    requires !app.spec.paused && k.kind == Ingress && k.ns == app.ns
    requires k.name in WriteNames(WritesOf(app, disc, Ingress))
    ensures AllSteady(app, Start(app, disc, now, s), k) && Holding(app, Start(app, disc, now, s), k)
  {
    forall op | op in Program(app, disc, now)
      ensures Steady(app, op, k)
    {
      IngressOpsSteady(app, disc, now, k, op);
    }
    var claim := WriteOn(app, WritesOf(app, disc, Ingress), Ingress, k.name);
    WritesInStep(app, disc, now, Ingress, claim);
    FlattenHas(Segments(app, disc, now), StepOf(Ingress), claim);
    IngressOpsSteady(app, disc, now, k, claim);
    assert ClaimsKey(claim, k);
  }

  /** Two apps of a namespace with domains of the same Ingress name are never both reconciled: however the calls of
      the two reconciles interleave, from any cluster, at least one of them fails. */
  lemma {:induction false} NeverBothReconciled(a: App, discA: Discovery, nowA: int, d: DomainSpec,
                                               b: App, discB: Discovery, nowB: int, e: DomainSpec,
                                               s: Objs, turns: seq<Turn>)
    requires !a.spec.paused && !b.spec.paused && a.ns == b.ns && a.name != b.name
    requires d in a.spec.domains && e in b.spec.domains
    requires DomainIngressName(a.name, d.name, d.path) == DomainIngressName(b.name, e.name, e.path)
    ensures var end := Play(a, b, Duo(Start(a, discA, nowA, s), Start(b, discB, nowB, s)), turns);
            end.left.ops == [] && end.right.ops == [] ==> end.left.failed || end.right.failed
  {
    var k, l := IngressKey(a, d), IngressKey(b, e);
    SharedKeys(a, d, b, e, Compress);
    IngressIsWritten(a, discA, d, k);
    IngressIsWritten(b, discB, e, l);
    StartHolds(a, discA, nowA, s, k);
    StartHolds(b, discB, nowB, s, k);
    PlayHolds(a, b, Duo(Start(a, discA, nowA, s), Start(b, discB, nowB, s)), turns, k);
  }

  /** In particular, after a successful reconcile of one the other's fails. */
  lemma {:induction false} SecondFails(a: App, discA: Discovery, before: int, s: Objs, d: DomainSpec,
                                       b: App, discB: Discovery, now: int, e: DomainSpec)
    requires !a.spec.paused && !b.spec.paused && a.ns == b.ns && a.name != b.name
    requires d in a.spec.domains && e in b.spec.domains
    requires DomainIngressName(a.name, d.name, d.path) == DomainIngressName(b.name, e.name, e.path)
    requires RunAll(a, Program(a, discA, before), s).ok
    ensures !RunAll(b, Program(b, discB, now), RunAll(a, Program(a, discA, before), s).objs).ok
  {
    var k, l := IngressKey(a, d), IngressKey(b, e);
    SharedKeys(a, d, b, e, Compress);
    IngressIsWritten(a, discA, d, k);
    IngressIsWritten(b, discB, e, l);
    SharedIngressBlocks(a, discA, before, s, b, discB, now, k);
  }

  /** But if it gets past its Middlewares it has taken over every one that both domains want: the Ingress of
      the first app goes on referring to a Middleware that now belongs to the other app. */
  lemma {:induction false} MiddlewaresChangeHands(a: App, d: DomainSpec, t: Objs,
                                                  b: App, disc: Discovery, now: int, e: DomainSpec,
                                                  kind: MiddlewareKind)
    requires !b.spec.paused && a.ns == b.ns && a.uid != b.uid
    requires e in b.spec.domains && Wants(e, kind)
    requires DomainIngressName(a.name, d.name, d.path) == DomainIngressName(b.name, e.name, e.path)
    requires disc.middlewares.Some? && RunAll(b, Head(b, disc, now), t).ok
    ensures var slot := Get(RunAll(b, Program(b, disc, now), t).objs, HopKey(a, d, kind));
            Managed(b, slot) && !Managed(a, slot)
  {
    SharedKeys(a, d, b, e, kind);
    MiddlewareTaken(b, disc, now, t, e, kind);
    OneManager(a, b, Get(RunAll(b, Program(b, disc, now), t).objs, HopKey(b, e, kind)));
  }
}
