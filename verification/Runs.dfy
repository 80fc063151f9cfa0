/** Composing partial runs: what the imperative reconciler's loops are proved with. */
module Runs {
  import opened Common
  import opened Spec
  import opened Cluster

  /** Outcome of the calls that carry out a list of operations from store s: either they completed, or
      they stopped at a store such a run passes through, because an operation was refused or because some
      call was not answered (down). */
  ghost predicate Went(app: App, ops: seq<Op>, s: Objs, p: bool, t: Objs, q: bool, ok: bool, down: bool) {
    if ok then Reaches(app, Run(s, ops, false, p), Run(t, [], false, q))
    else Stopped(app, Run(s, ops, false, p), t, down)
  }

  ghost predicate Stopped(app: App, from: Run, t: Objs, down: bool) {
    exists r :: Reaches(app, from, r) && r.objs == t && (r.failed || down)
  }

  lemma {:induction false} StoppedAt(app: App, from: Run, r: Run, down: bool, t: Objs)
    requires Reaches(app, from, r) && r.objs == t && down
    ensures Stopped(app, from, t, down)
  {
  }

  /** The reconcile succeeds only where RunAll does and ends in its store; when it fails although
      every call was answered, RunAll fails too. */
  lemma {:induction false} WentMeans(app: App, ops: seq<Op>, s: Objs, p: bool, t: Objs, q: bool, ok: bool, down: bool)
    requires Went(app, ops, s, p, t, q, ok, down)
    ensures ok ==> RunAll(app, ops, s) == Outcome(t, true)
    ensures !ok && !down ==> RunAll(app, ops, s) == Outcome(t, false)
    ensures !ok ==> exists picks :: Steps(app, Run(s, ops, false, p), picks).objs == t
  {
    if ok {
      CompleteRun(app, s, ops, p, Run(t, [], false, q));
    } else {
      var r :| Reaches(app, Run(s, ops, false, p), r) && r.objs == t && (r.failed || down);
      var picks :| Steps(app, Run(s, ops, false, p), picks) == r;
      if r.failed {
        RunInside(app, s, ops, [], picks, p);
        assert ops + [] == ops;
        CompleteRun(app, s, ops, p, r);
      }
    }
  }

  lemma {:induction false} LiftPicks(app: App, s: Objs, a: seq<Op>, b: seq<Op>, p: bool, picks: seq<string>)
    ensures var r := Steps(app, Run(s, a, false, p), picks);
            if r.failed then r.ops == [] && Reaches(app, Run(s, a + b, false, p), r)
            else Reaches(app, Run(s, a + b, false, p), r.(ops := r.ops + b))
  {
    var whole := Run(s, a + b, false, p);
    if picks == [] {
      ReachesRefl(app, whole);
    } else {
      var m, pick := Steps(app, Run(s, a, false, p), picks[..|picks| - 1]), picks[|picks| - 1];
      LiftPicks(app, s, a, b, p, picks[..|picks| - 1]);
      if !m.failed && m.ops != [] {
        var lifted := m.(ops := m.ops + b);
        StepLifts(app, m, b, pick);
        ReachesStep(app, lifted, pick);
        ReachesTrans(app, whole, lifted, Step(app, lifted, pick));
      }
    }
  }

  /** A call does the same whatever is to follow. */
  lemma {:induction false} StepLifts(app: App, m: Run, b: seq<Op>, pick: string)
    requires m.ops != [] && !m.failed
    ensures var r := Step(app, m, pick);
            if r.failed then r.ops == [] && Step(app, m.(ops := m.ops + b), pick) == r
            else Step(app, m.(ops := m.ops + b), pick) == r.(ops := r.ops + b)
  {
    var tail := m.ops[1..];
    assert (m.ops + b)[1..] == tail + b;
    match m.ops[0]
    case Prune(kind, keep) =>
      assert [Sweep(kind, ToPrune(app, m.objs, kind, keep))] + tail + b ==
               [Sweep(kind, ToPrune(app, m.objs, kind, keep))] + (tail + b);
    case Sweep(kind, names) =>
      assert [Sweep(kind, names - {pick})] + tail + b == [Sweep(kind, names - {pick})] + (tail + b);
    case Guarded(key, want) =>
      assert [Apply(key, want)] + tail + b == [Apply(key, want)] + (tail + b);
    case _ =>
  }

  /** Steps of a reconcile done one after the other are a run of the whole. */
  lemma {:induction false} WentThen(app: App, start: Run, ops: seq<Op>, rest: seq<Op>, s: Objs, p: bool, t: Objs,
                                    q: bool, ok: bool, down: bool)
    requires Reaches(app, start, Run(s, ops + rest, false, p))
    requires Went(app, ops, s, p, t, q, ok, down)
    ensures if ok then Reaches(app, start, Run(t, rest, false, q)) else Stopped(app, start, t, down)
  {
    var here := Run(s, ops, false, p);
    if ok {
      var picks :| Steps(app, here, picks) == Run(t, [], false, q);
      LiftPicks(app, s, ops, rest, p, picks);
      assert [] + rest == rest;
      ReachesTrans(app, start, Run(s, ops + rest, false, p), Run(t, rest, false, q));
    } else {
      var r :| Reaches(app, here, r) && r.objs == t && (r.failed || down);
      var picks :| Steps(app, here, picks) == r;
      LiftPicks(app, s, ops, rest, p, picks);
      var lifted := if r.failed then r else r.(ops := r.ops + rest);
      ReachesTrans(app, start, Run(s, ops + rest, false, p), lifted);
    }
  }

  lemma {:induction false} Advance(app: App, start: Run, s: Objs, op: Op, rest: seq<Op>, p: bool, pick: string)
    requires Reaches(app, start, Run(s, [op] + rest, false, p))
    ensures Reaches(app, start, Step(app, Run(s, [op] + rest, false, p), pick))
    ensures ([op] + rest)[0] == op && ([op] + rest)[1..] == rest
  {
    ReachesStep(app, Run(s, [op] + rest, false, p), pick);
    ReachesTrans(app, start, Run(s, [op] + rest, false, p), Step(app, Run(s, [op] + rest, false, p), pick));
  }

  lemma {:induction false} AdvanceApply(app: App, start: Run, s: Objs, key: Key, want: Obj, rest: seq<Op>, p: bool)
    requires Reaches(app, start, Run(s, [Apply(key, want)] + rest, false, p))
    ensures if Blocked(app, Get(s, key)) then Reaches(app, start, Run(s, [], true, p))
            else Reaches(app, start,
                         Run(s[key := Merge(app, key.kind, Get(s, key), Resolve(want, Synced(app, s)))], rest, false,
                             p))
  {
    Advance(app, start, s, Apply(key, want), rest, p, "");
  }

  lemma {:induction false} AdvanceReplace(app: App, start: Run, s: Objs, key: Key, want: Obj, rest: seq<Op>, p: bool)
    requires Reaches(app, start, Run(s, [Replace(key, want)] + rest, false, p))
    ensures Reaches(app, start, Run(s[key := Overwrite(Get(s, key), want)], rest, false, p))
  {
    Advance(app, start, s, Replace(key, want), rest, p, "");
  }

  lemma {:induction false} AdvanceEnsure(app: App, start: Run, s: Objs, key: Key, want: Obj, rest: seq<Op>, p: bool)
    requires Reaches(app, start, Run(s, [Ensure(key, want)] + rest, false, p))
    ensures Reaches(app, start, Run(if key in s then s else s[key := want], rest, false, p))
  {
    Advance(app, start, s, Ensure(key, want), rest, p, "");
    assert key in s ==> s[key := s[key]] == s;
  }

  lemma {:induction false} AdvanceDrop(app: App, start: Run, s: Objs, key: Key, rest: seq<Op>, p: bool)
    requires Reaches(app, start, Run(s, [Drop(key)] + rest, false, p))
    ensures Reaches(app, start, Run(s - {key}, rest, false, p))
  {
    Advance(app, start, s, Drop(key), rest, p, "");
  }

  lemma {:induction false} AdvanceNudge(app: App, start: Run, s: Objs, key: Key, now: int, rest: seq<Op>, p: bool)
    requires Reaches(app, start, Run(s, [Nudge(key, now)] + rest, false, p))
    ensures Reaches(app, start,
                    Run(if NudgeWanted(Get(s, key), now) then s[key := s[key].(nudge := Some(At(now / NANOS)))] else s,
                                    rest, false, p || StillPending(Get(s, key))))
  {
    Advance(app, start, s, Nudge(key, now), rest, p, "");
    assert Put1(s, key, Get(s, key)) == s;
  }

  // ----- Every successful run can be made call by call -----

  lemma {:induction false} SweepReaches(app: App, start: Run, s: Objs, kind: Kind, names: set<string>, rest: seq<Op>,
                                        p: bool)
    requires Reaches(app, start, Run(s, [Sweep(kind, names)] + rest, false, p))
    ensures Reaches(app, start, Run(s - KeysOf(kind, app.ns, names), rest, false, p))
    decreases names
  {
    if names == {} {
      Advance(app, start, s, Sweep(kind, names), rest, p, "");
      assert s - KeysOf(kind, app.ns, names) == s;
    } else {
      var n :| n in names;
      Advance(app, start, s, Sweep(kind, names), rest, p, n);
      SweepOne(s, kind, app.ns, names, n);
      SweepReaches(app, start, s - {Key(kind, app.ns, n)}, kind, names - {n}, rest, p);
    }
  }

  lemma {:induction false} ExecReaches(app: App, start: Run, s: Objs, op: Op, rest: seq<Op>, p: bool) returns (q: bool)
    requires Reaches(app, start, Run(s, [op] + rest, false, p)) && Exec(app, op, s).ok
    ensures Reaches(app, start, Run(Exec(app, op, s).objs, rest, false, q))
  {
    q := p;
    Advance(app, start, s, op, rest, p, "");
    match op
    case Prune(kind, keep) =>
      SweepReaches(app, start, s, kind, ToPrune(app, s, kind, keep), rest, p);
    case Sweep(kind, names) =>
      SweepReaches(app, start, s, kind, names, rest, p);
    case Guarded(key, want) =>
      if key in s {
        Advance(app, start, s, Apply(key, want), rest, p, "");
      } else {
        assert Put1(s, key, None) == s;
      }
    case Nudge(key, _) =>
      q := p || StillPending(Get(s, key));
    case _ =>
  }

  /** Calls can always be made such that a list of operations that succeeds is carried out whole. */
  lemma {:induction false} RunReaches(app: App, start: Run, s: Objs, ops: seq<Op>, rest: seq<Op>, p: bool)
      returns (q: bool)
    requires Reaches(app, start, Run(s, ops + rest, false, p)) && RunAll(app, ops, s).ok
    ensures Reaches(app, start, Run(RunAll(app, ops, s).objs, rest, false, q))
    decreases |ops|
  {
    if ops == [] {
      assert ops + rest == rest;
      q := p;
    } else {
      assert ops + rest == [ops[0]] + (ops[1..] + rest);
      var m := ExecReaches(app, start, s, ops[0], ops[1..] + rest, p);
      q := RunReaches(app, start, Exec(app, ops[0], s).objs, ops[1..], rest, m);
    }
  }
}
