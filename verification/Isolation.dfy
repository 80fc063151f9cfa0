/**
 What a reconcile leaves alone, at every call of every run: objects of other owners, objects the spec
 names when it prunes, and names that somebody else controls.
 */
module Isolation {
  import opened Common
  import opened Spec
  import opened Cluster
  import opened Desired
  import opened Convergence
  import opened Recovery

  // ----- Footprints -----

  function OpKeys(app: App, op: Op): set<Key> {
    match op
    case Prune(_, _) => {}
    case Sweep(kind, names) => KeysOf(kind, app.ns, names)
    case _ => {op.key}
  }

  /** The keys that operations name. */
  function Foot(app: App, ops: seq<Op>): set<Key> {
    if ops == [] then {} else OpKeys(app, ops[0]) + Foot(app, ops[1..])
  }

  lemma {:induction false} FootAppend(app: App, a: seq<Op>, b: seq<Op>)
    ensures Foot(app, a + b) == Foot(app, a) + Foot(app, b)
  {
    if a == [] {
      assert a + b == b;
    } else {
      assert (a + b)[1..] == a[1..] + b;
      FootAppend(app, a[1..], b);
    }
  }

  lemma {:induction false} FootHas(app: App, ops: seq<Op>, op: Op)
    requires op in ops
    ensures OpKeys(app, op) <= Foot(app, ops)
  {
    if op != ops[0] {
      FootHas(app, ops[1..], op);
    }
  }

  /** An operation changes only objects it names and objects its app manages. */
  lemma {:induction false} TouchFrame(app: App, op: Op, k: Key, cur: Slot, synced: Option<string>)
    requires k !in OpKeys(app, op) && !Managed(app, cur)
    ensures Touch(app, op, k, cur, synced) == Left(cur)
  {
    if op.Sweep? {
      assert k !in KeysOf(op.kind, app.ns, op.names);
      assert k.kind == op.kind && k.ns == app.ns ==> k.name !in op.names;
    }
  }

  lemma {:induction false} FootSplit(app: App, op: Op, tail: seq<Op>)
    ensures Foot(app, [op] + tail) == OpKeys(app, op) + Foot(app, tail)
  {
    assert ([op] + tail)[1..] == tail;
  }

  /** What a listing returns is managed, and not to be kept. */
  lemma {:induction false} ListedIsManaged(app: App, s: Objs, kind: Kind, keep: set<string>, k: Key)
    ensures k in KeysOf(kind, app.ns, ToPrune(app, s, kind, keep)) ==>
              Managed(app, Get(s, k)) && k.kind == kind && k.ns == app.ns && k.name !in keep
  {
    if k in KeysOf(kind, app.ns, ToPrune(app, s, kind, keep)) {
      var j :| j in s && j.kind == kind && j.ns == app.ns && Managed(app, Some(s[j])) && j.name !in keep &&
               j.name == k.name;
      assert j == k;
    }
  }

  /** One call leaves a key alone that the rest of the run does not name and the app does not manage,
      and the rest of the run still does not name it. */
  lemma {:induction false} StepFrame(app: App, r: Run, pick: string, k: Key)
    requires k !in Foot(app, r.ops) && !Managed(app, Get(r.objs, k))
    ensures Get(Step(app, r, pick).objs, k) == Get(r.objs, k)
    ensures k !in Foot(app, Step(app, r, pick).ops)
  {
    if r.ops != [] {
      var op, tail := r.ops[0], r.ops[1..];
      StepSlots(app, r, pick, k);
      TouchFrame(app, op, k, Get(r.objs, k), Synced(app, r.objs));
      match op
      case Prune(kind, keep) =>
        FootSplit(app, Sweep(kind, ToPrune(app, r.objs, kind, keep)), tail);
        ListedIsManaged(app, r.objs, kind, keep, k);
      case Sweep(kind, names) =>
        FootSplit(app, Sweep(kind, names - {pick}), tail);
        assert KeysOf(kind, app.ns, names - {pick}) <= KeysOf(kind, app.ns, names);
      case Guarded(key, want) =>
        FootSplit(app, Apply(key, want), tail);
      case _ =>
    }
  }

  /** Ownership frame: at every moment of every run, an object that the program does not name and that
      the app did not manage when the run began is exactly as it was. */
  lemma {:induction false} RunLeavesOthersAlone(app: App, r: Run, picks: seq<string>, k: Key)
    requires k !in Foot(app, r.ops) && !Managed(app, Get(r.objs, k))
    ensures Get(Steps(app, r, picks).objs, k) == Get(r.objs, k)
    ensures k !in Foot(app, Steps(app, r, picks).ops)
  {
    if picks != [] {
      var init := picks[..|picks| - 1];
      RunLeavesOthersAlone(app, r, init, k);
      StepFrame(app, Steps(app, r, init), picks[|picks| - 1], k);
    }
  }

  // ----- What pruning may delete -----

  /** The operations a run may hold without ever deleting an object of a pruned kind that the spec names. */
  ghost predicate KeepsNamed(app: App, op: Op, kind: Kind, keep: set<string>) {
    (op.Prune? && op.kind == kind ==> op.keep == keep) &&
    (op.Sweep? && op.kind == kind ==> op.names !! keep) &&
    (op.Drop? ==> op.key.kind != kind) &&
    ((op.Apply? || op.Replace? || op.Guarded? || op.Ensure?) && op.key.kind == kind ==>
      op.key.name in keep && op.key.ns == app.ns)
  }

  /** One invariant of a run: an object of the kind is as at the start, or the spec names it, or it was
      managed at the start, unnamed by the spec, and is gone; deletions in hand are of the last sort. */
  ghost predicate PrunedSoundly(app: App, s: Objs, r: Run, kind: Kind, keep: set<string>) {
    (forall op :: op in r.ops ==> KeepsNamed(app, op, kind, keep)) &&
    (forall op, n :: op in r.ops && op.Sweep? && op.kind == kind && n in op.names ==>
      Managed(app, Get(s, Key(kind, app.ns, n)))) &&
    (forall n :: n !in keep ==>
       var k := Key(kind, app.ns, n);
       (Bare(Get(r.objs, k)) == Bare(Get(s, k)) || (Get(r.objs, k) == None && Managed(app, Get(s, k))))) &&
    (forall n :: n in keep && Key(kind, app.ns, n) in s ==> Key(kind, app.ns, n) in r.objs)
  }

  /** Soundness of one object under one call. */
  lemma {:induction false} StepOnNamed(app: App, s: Objs, r: Run, pick: string, kind: Kind, keep: set<string>,
                                       n: string)
    requires PrunedSoundly(app, s, r, kind, keep)
    ensures var k, r' := Key(kind, app.ns, n), Step(app, r, pick);
            (n !in keep ==> Bare(Get(r'.objs, k)) == Bare(Get(s, k)) ||
                            (Get(r'.objs, k) == None && Managed(app, Get(s, k)))) &&
            (n in keep && k in s ==> k in r'.objs)
  {
    if r.ops != [] {
      assert KeepsNamed(app, r.ops[0], kind, keep);
      StepSlots(app, r, pick, Key(kind, app.ns, n));
    }
  }

  /** What a call leaves in hand. */
  lemma {:induction false} StepHolds(app: App, s: Objs, r: Run, pick: string, kind: Kind, keep: set<string>, o: Op)
    requires PrunedSoundly(app, s, r, kind, keep) && o in Step(app, r, pick).ops
    ensures KeepsNamed(app, o, kind, keep)
    ensures forall n :: o.Sweep? && o.kind == kind && n in o.names ==> Managed(app, Get(s, Key(kind, app.ns, n)))
  {
    if r.ops != [] {
      var op := r.ops[0];
      assert KeepsNamed(app, op, kind, keep);
      if o !in r.ops && op.Prune? && op.kind == kind {
        forall n | n in o.names
          ensures n !in keep && Managed(app, Get(s, Key(kind, app.ns, n)))
        {
          var j :| j in r.objs && j.kind == kind && j.ns == app.ns && Managed(app, Some(r.objs[j])) &&
                   j.name !in keep && j.name == n;
          assert j == Key(kind, app.ns, n);
        }
      }
    }
  }

  lemma {:induction false} StepPrunesSoundly(app: App, s: Objs, r: Run, pick: string, kind: Kind, keep: set<string>)
    requires PrunedSoundly(app, s, r, kind, keep)
    ensures PrunedSoundly(app, s, Step(app, r, pick), kind, keep)
  {
    forall n
      ensures n !in keep ==> var k := Key(kind, app.ns, n);
              Bare(Get(Step(app, r, pick).objs, k)) == Bare(Get(s, k)) ||
              (Get(Step(app, r, pick).objs, k) == None && Managed(app, Get(s, k)))
      ensures n in keep && Key(kind, app.ns, n) in s ==> Key(kind, app.ns, n) in Step(app, r, pick).objs
    {
      StepOnNamed(app, s, r, pick, kind, keep, n);
    }
    forall o | o in Step(app, r, pick).ops
      ensures KeepsNamed(app, o, kind, keep)
      ensures forall n :: o.Sweep? && o.kind == kind && n in o.names ==> Managed(app, Get(s, Key(kind, app.ns, n)))
    {
      StepHolds(app, s, r, pick, kind, keep, o);
    }
  }

  lemma {:induction false} OwnStep(app: App, i: nat, op: Op, kind: Kind, keep: set<string>)
    requires Proper(app, i, op) && kind in PRUNED
    ensures !op.Sweep?
    ensures OpKind(op) == kind && !op.Nudge? ==> i == StepOf(kind)
    ensures OpKind(op) != kind || op.Nudge? ==> KeepsNamed(app, op, kind, keep)
  {
  }

  lemma {:induction false} ProgramKeepsNamed(app: App, disc: Discovery, now: int, kind: Kind, op: Op)
    requires kind in PRUNED && Served(disc, kind)
    requires op in Program(app, disc, now)
    ensures KeepsNamed(app, op, kind, WriteNames(WritesOf(app, disc, kind))) && !op.Sweep?
  {
    var keep := WriteNames(WritesOf(app, disc, kind));
    var i := ProgramOps(app, disc, now, op);
    OwnStep(app, i, op, kind, keep);
    PrunedSegment(app, disc, now, kind);
    if !KeepsNamed(app, op, kind, keep) {
      InSegment(app, StepOps(app, disc, now, i), kind, op);
    }
  }

  lemma {:induction false} InSegment(app: App, seg: seq<Op>, kind: Kind, op: Op)
    requires Segment(app, seg, kind) && op in seg
    ensures KeepsNamed(app, op, kind, WriteNames(seg[..|seg| - 1])) && !op.Sweep?
  {
    var writes := seg[..|seg| - 1];
    assert seg == writes + [seg[|seg| - 1]];
    if op in writes {
      assert IsWrite(app, op, kind);
      WriteNamesMean(writes, op.key.name);
    }
  }

  /** Pruning is sound: at every moment of every run, whatever object of a pruned kind has been deleted
      carried the app's labels, was controlled by the app, and is not named by the spec. */
  lemma {:induction false} PruneDeletesOwnOnly(app: App, disc: Discovery, now: int, s: Objs, picks: seq<string>, k: Key)
    requires k.kind in PRUNED && Served(disc, k.kind)
    requires k in s && k !in Steps(app, Start(app, disc, now, s), picks).objs
    ensures k.ns == app.ns && Managed(app, Some(s[k])) && k.name !in WriteNames(WritesOf(app, disc, k.kind))
  {
    var start, keep := Start(app, disc, now, s), WriteNames(WritesOf(app, disc, k.kind));
    forall op | op in start.ops
      ensures KeepsNamed(app, op, k.kind, keep) && !op.Sweep? && NotDropping(op, k)
    {
      ProgramKeepsNamed(app, disc, now, k.kind, op);
    }
    AlwaysPrunesSoundly(app, s, start, picks, k.kind, keep);
    ForeignNamespace(app, start, picks, k);
  }

  lemma {:induction false} AlwaysPrunesSoundly(app: App, s: Objs, r: Run, picks: seq<string>, kind: Kind,
                                               keep: set<string>)
    requires PrunedSoundly(app, s, r, kind, keep)
    ensures PrunedSoundly(app, s, Steps(app, r, picks), kind, keep)
  {
    if picks != [] {
      AlwaysPrunesSoundly(app, s, r, picks[..|picks| - 1], kind, keep);
      StepPrunesSoundly(app, s, Steps(app, r, picks[..|picks| - 1]), picks[|picks| - 1], kind, keep);
    }
  }

  predicate NotDropping(op: Op, k: Key) {
    op != Drop(k)
  }

  lemma {:induction false} ForeignNamespace(app: App, r: Run, picks: seq<string>, k: Key)
    requires k in r.objs
    requires forall op :: op in r.ops ==> NotDropping(op, k)
    ensures k.ns != app.ns ==>
              k in Steps(app, r, picks).objs && forall op :: op in Steps(app, r, picks).ops ==> NotDropping(op, k)
  {
    if picks != [] && k.ns != app.ns {
      var m, pick := Steps(app, r, picks[..|picks| - 1]), picks[|picks| - 1];
      ForeignNamespace(app, r, picks[..|picks| - 1], k);
      if m.ops != [] {
        assert NotDropping(m.ops[0], k);
        StepSlots(app, m, pick, k);
      }
    }
  }

  // ----- Names taken by others -----

  /** Does not delete, replace or stamp the object of key k. */
  predicate Harmless(app: App, op: Op, k: Key) {
    (op.Drop? || op.Replace? || op.Nudge? ==> op.key != k) && (op.Sweep? ==> k !in KeysOf(op.kind, app.ns, op.names))
  }

  lemma {:induction false} TouchBlocked(app: App, op: Op, k: Key, cur: Slot, synced: Option<string>)
    requires Blocked(app, cur) && Sane(app, cur) && Harmless(app, op, k)
    ensures Touch(app, op, k, cur, synced) == Left(cur) || Touch(app, op, k, cur, synced) == Refused
  {
    if op.Sweep? {
      assert k.kind == op.kind && k.ns == app.ns ==> k.name !in op.names;
    }
  }

  lemma {:induction false} BlockedFrame(app: App, r: Run, picks: seq<string>, k: Key)
    requires Blocked(app, Get(r.objs, k)) && Sane(app, Get(r.objs, k))
    requires forall op :: op in r.ops ==> Harmless(app, op, k)
    ensures Get(Steps(app, r, picks).objs, k) == Get(r.objs, k)
    ensures forall op :: op in Steps(app, r, picks).ops ==> Harmless(app, op, k)
  {
    if picks != [] {
      var m, pick := Steps(app, r, picks[..|picks| - 1]), picks[|picks| - 1];
      BlockedFrame(app, r, picks[..|picks| - 1], k);
      if m.ops != [] {
        var op := m.ops[0];
        assert Harmless(app, op, k);
        StepSlots(app, m, pick, k);
        TouchBlocked(app, op, k, Get(m.objs, k), Synced(app, m.objs));
        if op.Sweep? {
          assert KeysOf(op.kind, app.ns, op.names - {pick}) <= KeysOf(op.kind, app.ns, op.names);
        } else if op.Prune? {
          ListedIsManaged(app, m.objs, op.kind, op.keep, k);
        }
      }
    }
  }

  lemma {:induction false} ClaimedOpsAreHarmless(app: App, disc: Discovery, now: int, k: Key, op: Op)
    requires !app.spec.paused && Claimed(app, k) && op in Program(app, disc, now)
    ensures Harmless(app, op, k)
  {
    var i := ProgramOps(app, disc, now, op);
    var same := ClaimedIsApplied(app, disc, now, k);
    FlattenHas(Segments(app, disc, now), StepOf(k.kind), same);
    ProgramOrderly(app, disc, now);
    assert op.Drop? ==> op.key != k;
  }

  /** A name controlled by somebody else stays exactly as it is through every run, and no run that
      claims it completes without an error. */
  lemma {:induction false} BlockedStaysPut(app: App, disc: Discovery, now: int, s: Objs, to: Run, k: Key)
    requires !app.spec.paused
    requires Claimed(app, k) && Blocked(app, Get(s, k)) && (forall j :: Sane(app, Get(s, j)))
    requires Reaches(app, Start(app, disc, now, s), to)
    ensures Get(to.objs, k) == Get(s, k)
    ensures to.ops == [] ==> to.failed
  {
    var start := Start(app, disc, now, s);
    var picks :| Steps(app, start, picks) == to;
    forall op | op in start.ops
      ensures Harmless(app, op, k)
    {
      ClaimedOpsAreHarmless(app, disc, now, k, op);
    }
    BlockedFrame(app, start, picks, k);
    if to.ops == [] {
      CompleteRun(app, s, start.ops, false, to);
      SucceedsIffUnblocked(app, disc, now, s);
    }
  }
}
