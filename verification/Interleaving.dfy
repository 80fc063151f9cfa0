/**
 Two reconciles at once. Each call of either may come between any two calls of the other; when the
 two apps use different objects, the cluster ends as if one had run after the other.
 */
module Interleaving {
  import opened Common
  import opened Spec
  import opened Cluster
  import opened Desired
  import opened Convergence
  import opened Recovery
  import opened Isolation

  // ----- Regions -----

  function ManagedKeys(app: App, s: Objs): set<Key> {
    set k | k in s && Managed(app, Some(s[k]))
  }

  /** All that a run of these operations may change: what they name and what the app manages. */
  function Region(app: App, ops: seq<Op>, s: Objs): set<Key> {
    Foot(app, ops) + ManagedKeys(app, s)
  }

  ghost predicate Within(app: App, ops: seq<Op>, s: Objs, region: set<Key>) {
    Foot(app, ops) <= region && forall k :: Managed(app, Get(s, k)) ==> k in region
  }

  /** Two stores that a run cannot tell apart: they agree on its region and on what it reads. */
  ghost predicate Agree(app: App, region: set<Key>, s: Objs, t: Objs) {
    forall k :: k in region + SyncedKeys(app) ==> Get(s, k) == Get(t, k)
  }

  lemma {:induction false} ExecFrame(app: App, op: Op, s: Objs, region: set<Key>, k: Key)
    requires OpKeys(app, op) <= region && (forall j :: Managed(app, Get(s, j)) ==> j in region)
    requires k !in region
    ensures Get(Exec(app, op, s).objs, k) == Get(s, k)
  {
    ExecSlots(app, op, s, k);
    TouchFrame(app, op, k, Get(s, k), Synced(app, s));
  }

  lemma {:induction false} ExecAgrees(app: App, op: Op, s: Objs, t: Objs, region: set<Key>)
    requires Within(app, [op], s, region) && Within(app, [op], t, region) && Agree(app, region, s, t)
    ensures Exec(app, op, s).ok == Exec(app, op, t).ok
    ensures Agree(app, region, Exec(app, op, s).objs, Exec(app, op, t).objs)
    ensures forall k :: k !in region ==>
              Get(Exec(app, op, s).objs, k) == Get(s, k) && Get(Exec(app, op, t).objs, k) == Get(t, k)
  {
    FootSplit(app, op, []);
    assert [op] + [] == [op];
    SyncedFrame(app, s, t);
    if op.Apply? || op.Guarded? {
      assert op.key in OpKeys(app, op);
    }
    forall k
      ensures k !in region ==> Get(Exec(app, op, s).objs, k) == Get(s, k) && Get(Exec(app, op, t).objs, k) == Get(t, k)
      ensures k in region + SyncedKeys(app) ==> Get(Exec(app, op, s).objs, k) == Get(Exec(app, op, t).objs, k)
    {
      ExecSlots(app, op, s, k);
      ExecSlots(app, op, t, k);
      if k !in region {
        ExecFrame(app, op, s, region, k);
        ExecFrame(app, op, t, region, k);
      }
    }
  }

  /** A run from stores it cannot tell apart fares the same, and changes only its region. */
  lemma {:induction false} RunAgrees(app: App, ops: seq<Op>, s: Objs, t: Objs, region: set<Key>)
    requires Within(app, ops, s, region) && Within(app, ops, t, region) && Agree(app, region, s, t)
    ensures RunAll(app, ops, s).ok == RunAll(app, ops, t).ok
    ensures Agree(app, region, RunAll(app, ops, s).objs, RunAll(app, ops, t).objs)
    ensures forall k :: k !in region ==> Get(RunAll(app, ops, s).objs, k) == Get(s, k)
    ensures forall k :: k !in region ==> Get(RunAll(app, ops, t).objs, k) == Get(t, k)
  {
    if ops != [] {
      assert ops == [ops[0]] + ops[1..];
      FootSplit(app, ops[0], ops[1..]);
      FootSplit(app, ops[0], []);
      assert [ops[0]] + [] == [ops[0]];
      ExecAgrees(app, ops[0], s, t, region);
      var s', t' := Exec(app, ops[0], s), Exec(app, ops[0], t);
      if s'.ok {
        forall k
          ensures Managed(app, Get(s'.objs, k)) ==> k in region
          ensures Managed(app, Get(t'.objs, k)) ==> k in region
        {
        }
        RunAgrees(app, ops[1..], s'.objs, t'.objs, region);
      }
    }
  }

  // ----- One of the two runs -----

  /** Renders no object controlled by anybody but its own app. */
  predicate OwnWant(app: App, op: Op) {
    op.Replace? || op.Ensure? ==> op.want.owner in {None, Some(Me(app))}
  }

  ghost function Finish(app: App, r: Run): Outcome {
    if r.failed then Outcome(r.objs, false) else RunAll(app, r.ops, r.objs)
  }

  /** A run under way that stays inside its region and will end there as it would have ended alone. */
  ghost predicate OnTrack(app: App, r: Run, region: set<Key>, alone: Outcome) {
    Within(app, r.ops, r.objs, region) &&
    (forall op :: op in r.ops ==> OwnWant(app, op)) &&
    (r.failed ==> r.ops == []) &&
    Finish(app, r).ok == alone.ok &&
    (forall k :: k in region ==> Get(Finish(app, r).objs, k) == Get(alone.objs, k))
  }

  lemma {:induction false} StepKeepsFinish(app: App, r: Run, pick: string)
    requires r.failed ==> r.ops == []
    ensures Finish(app, Step(app, r, pick)) == Finish(app, r)
    ensures Step(app, r, pick).failed ==> Step(app, r, pick).ops == []
  {
    if r.ops != [] {
      assert r.ops + [] == r.ops;
      var q' := StepKeeps(app, r, pick, r.ops, []);
      assert q' + [] == q';
    }
  }

  /** A call by one app never hands an object to another. */
  lemma {:induction false} StepGivesNothing(app: App, r: Run, pick: string, other: App, k: Key)
    requires app.uid != other.uid
    requires forall op :: op in r.ops ==> OwnWant(app, op)
    ensures Managed(other, Get(Step(app, r, pick).objs, k)) ==> Managed(other, Get(r.objs, k))
    ensures forall op :: op in Step(app, r, pick).ops ==> OwnWant(app, op)
  {
    if r.ops != [] {
      assert OwnWant(app, r.ops[0]);
      StepSlots(app, r, pick, k);
    }
  }

  lemma {:induction false} OwnStepOnTrack(app: App, r: Run, pick: string, region: set<Key>, alone: Outcome, other: App)
    requires OnTrack(app, r, region, alone) && app.uid != other.uid
    ensures OnTrack(app, Step(app, r, pick), region, alone)
    ensures forall k :: k !in region ==> Get(Step(app, r, pick).objs, k) == Get(r.objs, k)
    ensures forall k :: Managed(other, Get(Step(app, r, pick).objs, k)) ==> Managed(other, Get(r.objs, k))
  {
    StepKeepsFinish(app, r, pick);
    StepGivesNothing(app, r, pick, other, Key(ConfigMap, "", ""));
    forall k
      ensures k !in region ==> Get(Step(app, r, pick).objs, k) == Get(r.objs, k)
      ensures k !in region ==> k !in Foot(app, Step(app, r, pick).ops)
      ensures Managed(other, Get(Step(app, r, pick).objs, k)) ==> Managed(other, Get(r.objs, k))
    {
      StepGivesNothing(app, r, pick, other, k);
      if k !in region {
        StepFrame(app, r, pick, k);
      }
    }
  }

  /** Changes elsewhere do not disturb a run. */
  lemma {:induction false} OtherStepOnTrack(app: App, r: Run, region: set<Key>, alone: Outcome, t: Objs)
    requires OnTrack(app, r, region, alone)
    requires Agree(app, region, r.objs, t)
    requires forall k :: Managed(app, Get(t, k)) ==> Managed(app, Get(r.objs, k))
    ensures OnTrack(app, r.(objs := t), region, alone)
  {
    if !r.failed {
      RunAgrees(app, r.ops, r.objs, t, region);
    }
  }

  // ----- Both -----

  datatype Turn = Turn(first: bool, pick: string)

  /** Two runs over one store, which is the objs of both. */
  datatype Duo = Duo(left: Run, right: Run)

  ghost function Move(a: App, b: App, d: Duo, turn: Turn): Duo {
    if turn.first then
      var l := Step(a, d.left, turn.pick);
      Duo(l, d.right.(objs := l.objs))
    else
      var r := Step(b, d.right, turn.pick);
      Duo(d.left.(objs := r.objs), r)
  }

  ghost function Play(a: App, b: App, d: Duo, turns: seq<Turn>): Duo {
    if turns == [] then d else Move(a, b, Play(a, b, d, turns[..|turns| - 1]), turns[|turns| - 1])
  }

  /** Neither app's run touches or reads what the other's may change. */
  ghost predicate Apart(a: App, ra: set<Key>, b: App, rb: set<Key>) {
    a.uid != b.uid && ra !! rb && SyncedKeys(a) !! rb && SyncedKeys(b) !! ra
  }

  ghost predicate BothOnTrack(a: App, ra: set<Key>, alone: Outcome, b: App, rb: set<Key>, alone': Outcome, d: Duo,
                              s: Objs) {
    d.left.objs == d.right.objs &&
    OnTrack(a, d.left, ra, alone) && OnTrack(b, d.right, rb, alone') &&
    forall k :: k !in ra && k !in rb ==> Get(d.left.objs, k) == Get(s, k)
  }

  lemma {:induction false} MoveOnTrack(a: App, ra: set<Key>, alone: Outcome, b: App, rb: set<Key>, alone': Outcome,
                                       d: Duo, s: Objs, turn: Turn)
    requires Apart(a, ra, b, rb) && BothOnTrack(a, ra, alone, b, rb, alone', d, s)
    ensures BothOnTrack(a, ra, alone, b, rb, alone', Move(a, b, d, turn), s)
  {
    if turn.first {
      OwnStepOnTrack(a, d.left, turn.pick, ra, alone, b);
      OtherStepOnTrack(b, d.right, rb, alone', Step(a, d.left, turn.pick).objs);
    } else {
      OwnStepOnTrack(b, d.right, turn.pick, rb, alone', a);
      OtherStepOnTrack(a, d.left, ra, alone, Step(b, d.right, turn.pick).objs);
    }
  }

  lemma {:induction false} PlayOnTrack(a: App, ra: set<Key>, alone: Outcome, b: App, rb: set<Key>, alone': Outcome,
                                      d: Duo, s: Objs, turns: seq<Turn>)
    requires Apart(a, ra, b, rb) && BothOnTrack(a, ra, alone, b, rb, alone', d, s)
    ensures BothOnTrack(a, ra, alone, b, rb, alone', Play(a, b, d, turns), s)
  {
    if turns != [] {
      PlayOnTrack(a, ra, alone, b, rb, alone', d, s, turns[..|turns| - 1]);
      MoveOnTrack(a, ra, alone, b, rb, alone', Play(a, b, d, turns[..|turns| - 1]), s, turns[|turns| - 1]);
    }
  }

  ghost function Opening(a: App, opsA: seq<Op>, b: App, opsB: seq<Op>, s: Objs): Duo {
    Duo(Run(s, opsA, false, false), Run(s, opsB, false, false))
  }

  /** Running b's operations after a's gives each its own result. */
  lemma {:induction false} OneAfterTheOther(a: App, opsA: seq<Op>, b: App, opsB: seq<Op>, s: Objs)
    requires Apart(a, Region(a, opsA, s), b, Region(b, opsB, s))
    requires forall op :: op in opsA ==> OwnWant(a, op)
    ensures var both := RunAll(b, opsB, RunAll(a, opsA, s).objs);
            var alone, alone' := RunAll(a, opsA, s), RunAll(b, opsB, s);
            both.ok == alone'.ok &&
            (forall k :: k in Region(a, opsA, s) ==> Get(both.objs, k) == Get(alone.objs, k)) &&
            (forall k :: k in Region(b, opsB, s) ==> Get(both.objs, k) == Get(alone'.objs, k)) &&
            (forall k :: k !in Region(a, opsA, s) && k !in Region(b, opsB, s) ==> Get(both.objs, k) == Get(s, k))
  {
    var ra, rb, m := Region(a, opsA, s), Region(b, opsB, s), RunAll(a, opsA, s).objs;
    RunAgrees(a, opsA, s, s, ra);
    forall k
      ensures Managed(b, Get(m, k)) ==> k in rb
    {
      RunGivesNothing(a, opsA, s, b, k);
    }
    RunAgrees(b, opsB, s, m, rb);
  }

  lemma {:induction false} RunGivesNothing(app: App, ops: seq<Op>, s: Objs, other: App, k: Key)
    requires app.uid != other.uid
    requires forall op :: op in ops ==> OwnWant(app, op)
    ensures Managed(other, Get(RunAll(app, ops, s).objs, k)) ==> Managed(other, Get(s, k))
  {
    if ops != [] {
      assert OwnWant(app, ops[0]);
      ExecSlots(app, ops[0], s, k);
      if Exec(app, ops[0], s).ok {
        RunGivesNothing(app, ops[1..], Exec(app, ops[0], s).objs, other, k);
      }
    }
  }

  /** The interleaving does not matter, for any two lists of operations with separate regions. */
  lemma {:induction false} AnyInterleaving(a: App, opsA: seq<Op>, b: App, opsB: seq<Op>, s: Objs, turns: seq<Turn>)
    requires Apart(a, Region(a, opsA, s), b, Region(b, opsB, s))
    requires forall op :: op in opsA ==> OwnWant(a, op)
    requires forall op :: op in opsB ==> OwnWant(b, op)
    ensures var end := Play(a, b, Opening(a, opsA, b, opsB, s), turns);
            var first := RunAll(a, opsA, s);
            var second := RunAll(b, opsB, first.objs);
            end.left.ops == [] && end.right.ops == [] ==>
              end.left.objs == end.right.objs == second.objs && end.left.failed == !first.ok &&
              end.right.failed == !second.ok
  {
    var ra, rb := Region(a, opsA, s), Region(b, opsB, s);
    var alone, alone' := RunAll(a, opsA, s), RunAll(b, opsB, s);
    var d := Opening(a, opsA, b, opsB, s);
    assert BothOnTrack(a, ra, alone, b, rb, alone', d, s);
    PlayOnTrack(a, ra, alone, b, rb, alone', d, s, turns);
    OneAfterTheOther(a, opsA, b, opsB, s);
    var end := Play(a, b, d, turns);
    if end.left.ops == [] && end.right.ops == [] {
      SameSlots(end.left.objs, RunAll(b, opsB, alone.objs).objs);
    }
  }

  /** Non-interference: two reconciles whose apps name and control separate objects, which includes
      sharing no SecretStore, end as if the second had started after the first had finished, whatever
      the order of their calls; each fails exactly when it would have then. */
  lemma {:induction false} NonInterference(a: App, b: App, discA: Discovery, discB: Discovery, nowA: int, nowB: int,
                                           s: Objs, turns: seq<Turn>)
    requires Apart(a, Region(a, Program(a, discA, nowA), s), b, Region(b, Program(b, discB, nowB), s))
    ensures var end := Play(a, b, Duo(Start(a, discA, nowA, s), Start(b, discB, nowB, s)), turns);
            var first := RunAll(a, Program(a, discA, nowA), s);
            var second := RunAll(b, Program(b, discB, nowB), first.objs);
            end.left.ops == [] && end.right.ops == [] ==>
              end.left.objs == end.right.objs == second.objs && end.left.failed == !first.ok &&
              end.right.failed == !second.ok
  {
    ProgramOwns(a, discA, nowA);
    ProgramOwns(b, discB, nowB);
    AnyInterleaving(a, Program(a, discA, nowA), b, Program(b, discB, nowB), s, turns);
  }

  lemma {:induction false} ProgramOwns(app: App, disc: Discovery, now: int)
    ensures forall op :: op in Program(app, disc, now) ==> OwnWant(app, op)
  {
    forall op | op in Program(app, disc, now)
      ensures OwnWant(app, op)
    {
      var i := ProgramOps(app, disc, now, op);
    }
  }
}
