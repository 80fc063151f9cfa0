/**
 The PersistentVolumeClaim over its whole life: internal/controller/reconcile_pvc.go under any
 sequence of spec edits, reconciles and edits by others.
 */
module Disk {
  import opened Common
  import opened Spec
  import opened Cluster
  import opened History
  import opened Desired
  import opened Convergence
  import opened Recovery
  import opened Fixpoint
  import opened Runs

  /** What a run may hold for a claim: a guarded or plain create-or-update of it. */
  predicate ClaimOp(op: Op) {
    OpKind(op) == Pvc ==> (op.Apply? || op.Guarded?) && op.want.body.Claim?
  }

  lemma {:induction false} ProgramClaimOps(app: App, disc: Discovery, now: int, op: Op)
    requires op in Program(app, disc, now)
    ensures ClaimOp(op)
    ensures app.spec.disk.Some? && app.spec.disk.value.protect ==> Careful(op, PvcKey(app))
  {
    var i := ProgramOps(app, disc, now, op);
    if OpKind(op) == Pvc {
      assert i == StepOf(Pvc);
      assert op in PvcOps(app);
    }
  }

  lemma {:induction false} StepsHoldClaimOps(app: App, r: Run, picks: seq<string>)
    requires forall op :: op in r.ops ==> ClaimOp(op)
    ensures forall op :: op in Steps(app, r, picks).ops ==> ClaimOp(op)
  {
    if picks != [] {
      StepsHoldClaimOps(app, r, picks[..|picks| - 1]);
      var m := Steps(app, r, picks[..|picks| - 1]);
      if m.ops != [] {
        assert ClaimOp(m.ops[0]);
      }
    }
  }

  /** Every run of every reconcile makes only calls that the histories below allow. */
  lemma {:induction false} RunsHoldClaimOps(app: App, disc: Discovery, now: int, s: Objs, picks: seq<string>)
    ensures forall op :: op in Steps(app, Start(app, disc, now, s), picks).ops ==> ClaimOp(op)
  {
    forall op | op in Program(app, disc, now)
      ensures ClaimOp(op)
    {
      ProgramClaimOps(app, disc, now, op);
    }
    StepsHoldClaimOps(app, Start(app, disc, now, s), picks);
  }

  // ----- Histories of one claim -----

  /** A history in the lifetime of claim k in which only the operator edits its spec. */
  ghost predicate Legal(k: Key, s: Objs, events: seq<Event>)
    decreases |events|
  {
    events != [] ==>
      (match events[0]
       case Call(_, run, _) => run.objs == s && forall op :: op in run.ops ==> ClaimOp(op)
       case Collect(uid) => k in s ==> k in Collected(s, uid)
       case Outside(objs) => k in s ==> k in objs && objs[k].body == s[k].body) &&
      Legal(k, Then(s, events[0]), events[1..])
  }

  /** The event reconciles claim k. */
  ghost predicate Reconciles(k: Key, e: Event) {
    e.Call? && e.run.ops != [] && e.run.ops[0].Apply? && e.run.ops[0].key == k &&
    !Blocked(e.app, Get(e.run.objs, k)) && e.run.ops[0].want.body.Claim?
  }

  /** The sizes reconciled in a history. */
  ghost function Sizes(k: Key, events: seq<Event>): seq<int> {
    if events == [] then []
    else (if Reconciles(k, events[0]) then [events[0].run.ops[0].want.body.size] else []) + Sizes(k, events[1..])
  }

  function Largest(first: int, rest: seq<int>): (m: int)
    ensures m >= first && (m == first || m in rest)
    ensures forall x :: x in rest ==> x <= m
    decreases |rest|
  {
    if rest == [] then first
    else
      assert rest == [rest[0]] + rest[1..];
      Largest(Max(first, rest[0]), rest[1..])
  }

  lemma {:induction false} CallOnClaim(app: App, r: Run, pick: string, k: Key)
    requires k.kind == Pvc && k in r.objs && r.objs[k].body.Claim?
    requires forall op :: op in r.ops ==> ClaimOp(op)
    ensures var o, s' := r.objs[k], Step(app, r, pick).objs;
            k in s' &&
            if Reconciles(k, Call(app, r, pick))
            then s'[k].body == o.body.(size := Max(o.body.size, r.ops[0].want.body.size)) &&
                 s'[k].annotations == o.annotations + r.ops[0].want.annotations
            else s'[k] == o
  {
    if r.ops != [] {
      assert ClaimOp(r.ops[0]);
      StepSlots(app, r, pick, k);
      ExecSlots(app, r.ops[0], r.objs, k);
    }
  }

  /** Ratchet: over any history of one claim its requested size is the largest of its first size and all
      sizes reconciled since, so it never shrinks, and its access modes and storage class stay as they
      were created. */
  lemma {:induction false} SizeOnlyGrows(k: Key, s: Objs, events: seq<Event>)
    requires k.kind == Pvc && k in s && s[k].body.Claim?
    requires Legal(k, s, events)
    ensures k in Finally(s, events)
    ensures Finally(s, events)[k].body
            == Claim(Largest(s[k].body.size, Sizes(k, events)), s[k].body.accessModes, s[k].body.storageClass)
    decreases |events|
  {
    if events != [] {
      var e := events[0];
      if e.Call? {
        CallOnClaim(e.app, e.run, e.pick, k);
      }
      SizeOnlyGrows(k, Then(s, e), events[1..]);
      if Reconciles(k, e) {
        assert Sizes(k, events)[1..] == Sizes(k, events[1..]);
      } else {
        assert Sizes(k, events) == Sizes(k, events[1..]);
      }
    }
  }

  /** Nobody outside edits annotation a, and no reconciled spec sets it. */
  ghost predicate Foreign(k: Key, a: string, s: Objs, events: seq<Event>)
    decreases |events|
  {
    events != [] ==>
      (Reconciles(k, events[0]) ==> a !in events[0].run.ops[0].want.annotations) &&
      (events[0].Outside? && k in s && k in events[0].objs ==>
        (a in s[k].annotations <==> a in events[0].objs[k].annotations) &&
        (a in s[k].annotations ==> events[0].objs[k].annotations[a] == s[k].annotations[a])) &&
      Foreign(k, a, Then(s, events[0]), events[1..])
  }

  /** Annotations that the specs never mention are never removed nor changed by the operator. */
  lemma {:induction false} ForeignAnnotationsStay(k: Key, a: string, s: Objs, events: seq<Event>)
    requires k.kind == Pvc && k in s && s[k].body.Claim?
    requires Legal(k, s, events) && Foreign(k, a, s, events)
    ensures k in Finally(s, events)
    ensures a in Finally(s, events)[k].annotations <==> a in s[k].annotations
    ensures a in s[k].annotations ==> Finally(s, events)[k].annotations[a] == s[k].annotations[a]
    decreases |events|
  {
    if events != [] {
      var e := events[0];
      if e.Call? {
        CallOnClaim(e.app, e.run, e.pick, k);
      }
      ForeignAnnotationsStay(k, a, Then(s, e), events[1..]);
    }
  }

  // ----- Protection -----

  /** Would not create claim k. */
  predicate Careful(op: Op, k: Key) {
    (OpKind(op) == Pvc && !op.Prune? && !op.Sweep? && op.key == k) ==> op.Guarded?
  }

  lemma {:induction false} CarefulRuns(app: App, r: Run, picks: seq<string>, k: Key)
    requires k.kind == Pvc && k !in r.objs && forall op :: op in r.ops ==> Careful(op, k)
    ensures k !in Steps(app, r, picks).objs
    ensures forall op :: op in Steps(app, r, picks).ops ==> Careful(op, k)
  {
    if picks != [] {
      CarefulRuns(app, r, picks[..|picks| - 1], k);
      var m, pick := Steps(app, r, picks[..|picks| - 1]), picks[|picks| - 1];
      if m.ops != [] {
        assert Careful(m.ops[0], k);
        StepSlots(app, m, pick, k);
      }
    }
  }

  /** With disk.protect set and nobody else acting during the run, a missing claim is missing at every
      moment of the run: the operator never creates it. */
  lemma {:induction false} ProtectNeverCreates(app: App, disc: Discovery, now: int, s: Objs, picks: seq<string>)
    requires app.spec.disk.Some? && app.spec.disk.value.protect && PvcKey(app) !in s
    ensures PvcKey(app) !in Steps(app, Start(app, disc, now, s), picks).objs
  {
    forall op | op in Program(app, disc, now)
      ensures Careful(op, PvcKey(app))
    {
      ProgramClaimOps(app, disc, now, op);
    }
    CarefulRuns(app, Start(app, disc, now, s), picks, PvcKey(app));
  }

  /** One run with others acting between its calls: a call of the run, or any change of the cluster. */
  datatype Act = Turn(pick: string) | Change(objs: Objs)

  ghost function Interleaved(app: App, r: Run, acts: seq<Act>): Run {
    if acts == [] then r
    else
      var m := Interleaved(app, r, acts[..|acts| - 1]);
      match acts[|acts| - 1]
      case Turn(pick) => Step(app, m, pick)
      case Change(objs) => m.(objs := objs)
  }

  /** The last call that the run has made is the guard of claim k, and it found the claim. */
  ghost predicate Found(app: App, r: Run, acts: seq<Act>, k: Key) {
    acts != [] &&
    var init := acts[..|acts| - 1];
    if acts[|acts| - 1].Change? then Found(app, r, init, k)
    else
      var m := Interleaved(app, r, init);
      m.ops != [] && m.ops[0].Guarded? && m.ops[0].key == k && k in m.objs
  }

  /** The operations in hand leave claim k to its guard, but for the write of a guard that has passed. */
  ghost predicate Waiting(r: Run, k: Key, passed: bool) {
    (passed <==> r.ops != [] && r.ops[0].Apply? && r.ops[0].key == k) &&
    (forall op :: op in (if passed then r.ops[1..] else r.ops) ==> Careful(op, k))
  }

  lemma {:induction false} AllCareful(r: Run, k: Key)
    requires forall op :: op in r.ops ==> Careful(op, k)
    requires k.kind == Pvc
    ensures Waiting(r, k, false)
  {
    assert r.ops != [] ==> Careful(r.ops[0], k);
  }

  lemma {:induction false} GuardWaits(app: App, m: Run, pick: string, k: Key, op: Op, tail: seq<Op>)
    requires k.kind == Pvc && m.ops == [op] + tail && op.Guarded? && forall x :: x in tail ==> Careful(x, k)
    ensures Waiting(Step(app, m, pick), k, op.key == k && k in m.objs)
  {
    var r := Step(app, m, pick);
    SequenceSplits(op, tail, []);
    if op.key in m.objs {
      SequenceSplits(Apply(op.key, op.want), tail, []);
      if op.key != k {
        assert r.ops == [Apply(op.key, op.want)] + tail;
        AllCareful(r, k);
      }
    } else {
      AllCareful(r, k);
    }
  }

  /** A call leaves in hand what was to follow and at most the deletions left of its operation. */
  lemma {:induction false} CallLeaves(app: App, m: Run, pick: string, op: Op, tail: seq<Op>)
    requires m.ops == [op] + tail && !op.Guarded?
    ensures forall x :: x in Step(app, m, pick).ops ==> x in tail || x.Sweep?
  {
    SequenceSplits(op, tail, []);
  }

  lemma {:induction false} TurnWaits(app: App, m: Run, pick: string, k: Key, passed: bool)
    requires k.kind == Pvc && m.ops != [] && Waiting(m, k, passed)
    ensures Waiting(Step(app, m, pick), k, m.ops[0].Guarded? && m.ops[0].key == k && k in m.objs)
  {
    var op, tail := m.ops[0], m.ops[1..];
    assert m.ops == [op] + tail;
    assert forall x :: x in tail ==> Careful(x, k);
    if op.Guarded? {
      GuardWaits(app, m, pick, k, op, tail);
    } else {
      CallLeaves(app, m, pick, op, tail);
      AllCareful(Step(app, m, pick), k);
    }
  }

  lemma {:induction false} ActsWait(app: App, r: Run, acts: seq<Act>, k: Key)
    requires k.kind == Pvc && Waiting(r, k, false)
    ensures Waiting(Interleaved(app, r, acts), k, Found(app, r, acts, k))
  {
    if acts != [] {
      var init := acts[..|acts| - 1];
      ActsWait(app, r, init, k);
      var m := Interleaved(app, r, init);
      if acts[|acts| - 1].Turn? && m.ops != [] {
        TurnWaits(app, m, acts[|acts| - 1].pick, k, Found(app, r, init, k));
      }
    }
  }

  /** A call creates a missing claim exactly when its operation is the plain create-or-update of the claim. */
  lemma {:induction false} CreatesExactly(app: App, r: Run, pick: string, k: Key)
    requires k.kind == Pvc && k !in r.objs && Waiting(r, k, r.ops != [] && r.ops[0].Apply? && r.ops[0].key == k)
    ensures k in Step(app, r, pick).objs <==> r.ops != [] && r.ops[0].Apply? && r.ops[0].key == k
  {
    if r.ops != [] {
      StepSlots(app, r, pick, k);
      if r.ops[0].Apply? && r.ops[0].key == k {
        ExecSlots(app, r.ops[0], r.objs, k);
      } else {
        assert Careful(r.ops[0], k);
      }
    }
  }

  lemma {:induction false} ProtectedWaits(app: App, disc: Discovery, now: int, s: Objs)
    requires app.spec.disk.Some? && app.spec.disk.value.protect
    ensures Waiting(Start(app, disc, now, s), PvcKey(app), false)
  {
    var ops := Program(app, disc, now);
    forall op | op in ops
      ensures Careful(op, PvcKey(app))
    {
      ProgramClaimOps(app, disc, now, op);
    }
    assert ops != [] ==> ops[0] in ops;
  }

  /** Protection, exactly: while a protected spec is reconciled and others act as they like between its calls, a
      call of the operator creates the missing claim if and only if its guard, the last call before, found the
      claim: it was there at the guard and gone at the write. */
  lemma {:induction false} ProtectionExactly(app: App, disc: Discovery, now: int, s: Objs, acts: seq<Act>, pick: string)
    requires app.spec.disk.Some? && app.spec.disk.value.protect
    ensures var start := Start(app, disc, now, s);
            var r := Interleaved(app, start, acts);
            PvcKey(app) !in r.objs ==>
              (PvcKey(app) in Step(app, r, pick).objs <==> Found(app, start, acts, PvcKey(app)))
  {
    var start := Start(app, disc, now, s);
    var r := Interleaved(app, start, acts);
    ProtectedWaits(app, disc, now, s);
    ActsWait(app, start, acts, PvcKey(app));
    if PvcKey(app) !in r.objs {
      CreatesExactly(app, r, pick, PvcKey(app));
    }
  }

  lemma {:induction false} TurnsAreSteps(app: App, r: Run, picks: seq<string>) returns (acts: seq<Act>)
    ensures Interleaved(app, r, acts) == Steps(app, r, picks)
  {
    if picks == [] {
      acts := [];
    } else {
      var init := TurnsAreSteps(app, r, picks[..|picks| - 1]);
      acts := init + [Turn(picks[|picks| - 1])];
      assert acts[..|acts| - 1] == init;
    }
  }

  lemma {:induction false} OneMore(app: App, r: Run, acts: seq<Act>, act: Act)
    ensures Interleaved(app, r, acts + [act])
            == match act case Turn(pick) => Step(app, Interleaved(app, r, acts), pick)
                         case Change(objs) => Interleaved(app, r, acts).(objs := objs)
  {
    assert (acts + [act])[..|acts|] == acts;
  }

  /** The reconcile around its guard. */
  lemma {:induction false} AroundGuard(app: App, disc: Discovery, now: int) returns (before: seq<Op>, after: seq<Op>)
    requires !app.spec.paused && app.spec.disk.Some? && app.spec.disk.value.protect
    ensures Program(app, disc, now) == before + ([Guarded(PvcKey(app), PvcWant(app, app.spec.disk.value))] + after)
    ensures Avoids(before, Pvc)
  {
    var segs := Segments(app, disc, now);
    SplitAt(segs, StepOf(Pvc));
    before, after := Flatten(segs[..StepOf(Pvc)]), Flatten(segs[StepOf(Pvc) + 1..]);
    forall i | 0 <= i < StepOf(Pvc)
      ensures Avoids(segs[i], Pvc)
    {
      SegmentsAreProper(app, disc, now, i);
    }
    AvoidsFlatten(segs[..StepOf(Pvc)], Pvc);
  }

  /** The gap is there for every protected spec: wherever a reconcile would succeed and the claim exists, somebody
      who deletes it at one moment makes the operator create a new one. */
  lemma {:induction false} ProtectHasAGap(app: App, disc: Discovery, now: int, s: Objs) returns (acts: seq<Act>)
    requires !app.spec.paused && app.spec.disk.Some? && app.spec.disk.value.protect && PvcKey(app) in s
    requires RunAll(app, Program(app, disc, now), s).ok
    ensures var r := Interleaved(app, Start(app, disc, now, s), acts);
            PvcKey(app) !in r.objs && PvcKey(app) in Step(app, r, "").objs
  {
    var start, k, want := Start(app, disc, now, s), PvcKey(app), PvcWant(app, app.spec.disk.value);
    var before, after := AroundGuard(app, disc, now);
    RunAppend(app, before, [Guarded(k, want)] + after, s);
    var t := RunAll(app, before, s).objs;
    UntouchedSlot(app, before, s, k);
    ReachesRefl(app, start);
    var p := RunReaches(app, start, s, before, [Guarded(k, want)] + after, false);
    var picks :| Steps(app, start, picks) == Run(t, [Guarded(k, want)] + after, false, p);
    var calls := TurnsAreSteps(app, start, picks);
    OneMore(app, start, calls, Turn(""));
    OneMore(app, start, calls + [Turn("")], Change(t - {k}));
    acts := calls + [Turn("")] + [Change(t - {k})];
    assert ([Guarded(k, want)] + after)[1..] == after;
  }

  lemma {:induction false} ClaimWritten(app: App, cur: Slot)
    requires app.spec.disk.Some? && (cur.Some? || !app.spec.disk.value.protect)
    requires Fold(app, PvcOps(app), PvcKey(app), cur).Left?
    ensures Fold(app, PvcOps(app), PvcKey(app), cur) ==
              Left(Some(Merge(app, Pvc, cur, PvcWant(app, app.spec.disk.value))))
  {
    var ops := PvcOps(app);
    assert ops == [ops[0]] && ops[1..] == [];
  }

  lemma {:induction false} MergedClaim(app: App, cur: Slot, disk: DiskConfig)
    ensures var o := Merge(app, Pvc, cur, PvcWant(app, disk));
            Managed(app, Some(o)) && o.body.Claim? && o.body.size >= disk.sizeInGi * GI &&
            forall a :: a in disk.annotations ==> a in o.annotations && o.annotations[a] == disk.annotations[a]
  {
  }

  /** A claim that exists, or is not protected, is brought to at least the declared size with the declared
      annotations by every successful reconcile. */
  lemma {:induction false} ClaimIsReconciled(app: App, disc: Discovery, now: int, s: Objs)
    requires !app.spec.paused && app.spec.disk.Some? && (PvcKey(app) in s || !app.spec.disk.value.protect)
    requires RunAll(app, Program(app, disc, now), s).ok
    ensures var t, k := RunAll(app, Program(app, disc, now), s).objs, PvcKey(app);
            k in t && Managed(app, Some(t[k])) && t[k].body.Claim? &&
            t[k].body.size >= app.spec.disk.value.sizeInGi * GI &&
            forall a :: a in app.spec.disk.value.annotations ==>
              a in t[k].annotations && t[k].annotations[a] == app.spec.disk.value.annotations[a]
  {
    FinalSlot(app, disc, now, s, PvcKey(app));
    ClaimWritten(app, Get(s, PvcKey(app)));
    MergedClaim(app, Get(s, PvcKey(app)), app.spec.disk.value);
  }
}
