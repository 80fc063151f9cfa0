/**
 The nudge throttle of internal/controller/reconcile_externalsecret_retry.go over whole histories of
 the cluster: how far apart the stamps on one object are, and where a stamp gets lost.
 Clock readings are nanoseconds; a stamp holds whole seconds.
 */
module Throttle {
  import opened Common
  import opened Spec
  import opened Cluster
  import opened History
  import opened Desired
  import opened Convergence
  import opened Recovery
  import opened Fixpoint
  import Stores

  /** A history in which nobody but the operator edits the stamp of k, or deletes k. */
  ghost predicate Legal(k: Key, s: Objs, events: seq<Event>)
    decreases |events|
  {
    events != [] ==>
      (match events[0]
       case Call(app, run, _) => run.objs == s && forall op :: op in run.ops ==> InHand(app, op)
       case Collect(uid) => k in s ==> k in Collected(s, uid)
       case Outside(objs) => k in s ==> k in objs && objs[k].nudge == s[k].nudge) &&
      Legal(k, Then(s, events[0]), events[1..])
  }

  ghost predicate Nudging(k: Key, s: Objs, e: Event) {
    e.Call? && e.run.ops != [] && e.run.ops[0].Nudge? && e.run.ops[0].key == k &&
    NudgeWanted(Get(s, k), e.run.ops[0].now)
  }

  /** The clock readings of the nudges of k in a history. */
  ghost function Nudges(k: Key, s: Objs, events: seq<Event>): seq<int>
    decreases |events|
  {
    if events == [] then []
    else (if Nudging(k, s, events[0]) then [events[0].run.ops[0].now] else []) +
         Nudges(k, Then(s, events[0]), events[1..])
  }

  /** A call on a SecretStore leaves it alone, save for a wanted nudge. */
  lemma {:induction false} CallOnStore(app: App, r: Run, pick: string, k: Key)
    requires k.kind == SecretStore && k in r.objs
    requires forall op :: op in r.ops ==> InHand(app, op)
    ensures k in Step(app, r, pick).objs
    ensures Step(app, r, pick).objs[k]
            == if Nudging(k, r.objs, Call(app, r, pick)) then r.objs[k].(nudge := Some(At(r.ops[0].now / NANOS)))
               else r.objs[k]
  {
    if r.ops != [] {
      assert InHand(app, r.ops[0]);
      StepSlots(app, r, pick, k);
      ExecSlots(app, r.ops[0], r.objs, k);
    }
  }

  lemma {:induction false} DueMeans(t: int, now: int)
    requires Due(Some(At(t)), now)
    ensures now / 1_000_000_000 >= t + 30
    ensures now >= (t + 30) * 1_000_000_000
  {
  }

  /** Throttle: over any history in which nobody else edits the stamp, any two successive nudges of one
      SecretStore carry stamps at least 30 s apart, however the clock behaves, and were made at readings
      more than 29 s apart. */
  lemma {:induction false} StampsAreSpaced(k: Key, s: Objs, events: seq<Event>)
    requires k.kind == SecretStore && k in s && Legal(k, s, events)
    ensures var ns := Nudges(k, s, events);
            (forall i :: 0 <= i < |ns| - 1 ==>
              ns[i + 1] / 1_000_000_000 - ns[i] / 1_000_000_000 >= 30 && ns[i + 1] - ns[i] > 29 * 1_000_000_000) &&
            (ns != [] && s[k].nudge.Some? && s[k].nudge.value.At? ==>
              ns[0] >= (s[k].nudge.value.second + 30) * 1_000_000_000)
    decreases |events|
  {
    if events != [] {
      var e := events[0];
      if e.Call? {
        CallOnStore(e.app, e.run, e.pick, k);
      }
      StampsAreSpaced(k, Then(s, e), events[1..]);
      var ns, rest := Nudges(k, s, events), Nudges(k, Then(s, e), events[1..]);
      if Nudging(k, s, e) {
        var now := e.run.ops[0].now;
        assert ns == [now] + rest;
        if s[k].nudge.Some? && s[k].nudge.value.At? {
          DueMeans(s[k].nudge.value.second, now);
        }
        assert Then(s, e)[k].nudge == Some(At(now / NANOS));
      } else {
        assert ns == rest;
      }
    }
  }

  /** So n nudges take at least 30(n - 1) s of stamps: a failing store is never hammered. */
  lemma {:induction false} NudgesTakeTime(k: Key, s: Objs, events: seq<Event>)
    requires k.kind == SecretStore && k in s && Legal(k, s, events)
    ensures var ns := Nudges(k, s, events);
            ns != [] ==> ns[|ns| - 1] / 1_000_000_000 - ns[0] / 1_000_000_000 >= 30 * (|ns| - 1)
  {
    StampsAreSpaced(k, s, events);
    SpacedSum(Nudges(k, s, events));
  }

  lemma {:induction false} SpacedSum(ns: seq<int>)
    requires forall i :: 0 <= i < |ns| - 1 ==> ns[i + 1] / 1_000_000_000 - ns[i] / 1_000_000_000 >= 30
    ensures ns != [] ==> ns[|ns| - 1] / 1_000_000_000 - ns[0] / 1_000_000_000 >= 30 * (|ns| - 1)
  {
    if |ns| > 1 {
      SpacedSum(ns[..|ns| - 1]);
      assert ns[..|ns| - 1][|ns| - 2] == ns[|ns| - 2];
      assert ns[|ns| - 1] / 1_000_000_000 - ns[|ns| - 2] / 1_000_000_000 >= 30;
    }
  }

  /** The 29 s bound is tight: because the stamp drops the fraction of a second, a nudge may follow one
      made 29 s and one nanosecond earlier, though not one made a nanosecond less before. */
  lemma {:induction false} TruncationShortensTheGap(cur: Slot, second: int)
    requires cur.Some? && cur.value.ready == Some(false)
    ensures var first := second * 1_000_000_000 + 999_999_999;
            var slot := Some(cur.value.(nudge := Some(At(first / 1_000_000_000))));
            NudgeWanted(slot, first + 29_000_000_001) && !NudgeWanted(slot, first + 29_000_000_000)
  {
  }

  // ----- ExternalSecrets -----

  lemma {:induction false} NudgeList(app: App, nudges: seq<Op>, now: int, k: Key, cur: Slot)
    requires forall op :: op in nudges ==> op.Nudge? && op.now == now
    requires cur.Some? && (cur.value.nudge == None || cur.value.nudge == Some(At(now / NANOS)))
    ensures Fold(app, nudges, k, cur)
            == Left(if Nudge(k, now) in nudges && cur.value.ready == Some(false)
                    then Some(cur.value.(nudge := Some(At(now / NANOS)))) else cur)
  {
    if nudges != [] {
      assert nudges == [nudges[0]] + nudges[1..];
      assert nudges[0].Nudge? && nudges[0].now == now;
      NudgeList(app, nudges[1..], now, k, Touch(app, nudges[0], k, cur, None).slot);
    }
  }

  lemma {:induction false} ExternalNudgesHave(app: App, ess: seq<ExternalSecretMount>, now: int,
                                              es: ExternalSecretMount)
    requires es in ess
    ensures Nudge(ExternalKey(app, es), now) in ExternalNudges(app, ess, now)
  {
    if es != ess[0] {
      assert es in ess[1..];
      ExternalNudgesHave(app, ess[1..], now, es);
    }
  }

  lemma {:induction false} ExternalNudgesNow(app: App, ess: seq<ExternalSecretMount>, now: int)
    ensures forall op :: op in ExternalNudges(app, ess, now) ==> op.Nudge? && op.now == now
  {
    if ess != [] {
      ExternalNudgesNow(app, ess[1..], now);
    }
  }

  /** Steps 3 and 4 alone decide an ExternalSecret. */
  lemma {:induction false} ExternalFold(app: App, disc: Discovery, now: int, k: Key, cur: Slot)
    requires !app.spec.paused && k.kind == ExternalSecret
    requires Fold(app, ExternalOps(app, disc), k, cur).Left?
    ensures Fold(app, Program(app, disc, now), k, cur)
            == Fold(app, RetryOps(app, disc, now), k, Fold(app, ExternalOps(app, disc), k, cur).slot)
  {
    var segs := Segments(app, disc, now);
    forall j | 0 <= j < STEPS && j != 3 && j != RETRY_STEP
      ensures Avoids(segs[j], ExternalSecret)
    {
      SegmentsAreProper(app, disc, now, j);
    }
    AroundTwo(app, segs, 3, RETRY_STEP, k, cur);
  }

  /** The ExternalSecret step replaces the object, stamp and all. */
  lemma {:induction false} ReplacedWithoutStamp(app: App, disc: Discovery, now: int, es: ExternalSecretMount, cur: Slot)
    requires disc.externalSecrets && es in app.spec.externalSecrets
    requires Fold(app, ExternalOps(app, disc), ExternalKey(app, es), cur).Left?
    ensures var mid := Fold(app, ExternalOps(app, disc), ExternalKey(app, es), cur).slot;
            mid.Some? && mid.value.nudge == None && mid.value.ready == if cur.Some? then cur.value.ready else None
  {
    var k, writes := ExternalKey(app, es), ExternalWrites(app, app.spec.externalSecrets);
    PrunedSegment(app, disc, now, ExternalSecret);
    FoldSegment(app, ExternalOps(app, disc), ExternalSecret, k, cur);
    ExternalsWritten(app, app.spec.externalSecrets);
    WriteNamesMean(writes, k.name);
    assert ExternalWrite(app, es) in writes;
    LastOnShape(writes, k);
    assert IsWrite(app, LastOn(writes, k).value, ExternalSecret);
  }

  /** Exactly what a run leaves of an ExternalSecret's stamp and readiness. */
  lemma {:induction false} FinalStamp(app: App, disc: Discovery, now: int, s: Objs, es: ExternalSecretMount)
    requires !app.spec.paused && disc.externalSecrets && es in app.spec.externalSecrets
    requires RunAll(app, Program(app, disc, now), s).ok
    ensures var slot := Get(RunAll(app, Program(app, disc, now), s).objs, ExternalKey(app, es));
            var ready := if ExternalKey(app, es) in s then s[ExternalKey(app, es)].ready else None;
            slot.Some? && slot.value.ready == ready &&
            slot.value.nudge == if ready == Some(false) then Some(At(now / NANOS)) else None
  {
    var prog, k := Program(app, disc, now), ExternalKey(app, es);
    forall op | op in prog
      ensures Plain(op, ExternalSecret)
    {
      var i := ProgramOps(app, disc, now, op);
    }
    RunSlots(app, prog, s, k);
    FinalSlot(app, disc, now, s, k);
    ExternalFold(app, disc, now, k, Get(s, k));
    ReplacedWithoutStamp(app, disc, now, es, Get(s, k));
    RetryOnExternal(app, disc, now, es, Fold(app, ExternalOps(app, disc), k, Get(s, k)).slot);
  }

  /** The throttle does not survive a full reconcile for ExternalSecrets: replacing the object drops its
      stamp first, so every successful run stamps every not-Ready ExternalSecret of the spec anew,
      whenever it was last nudged, and leaves all others without a stamp. */
  lemma {:induction false} EveryRunRestamps(app: App, disc: Discovery, now: int, s: Objs, es: ExternalSecretMount)
    requires !app.spec.paused && disc.externalSecrets && es in app.spec.externalSecrets
    requires RunAll(app, Program(app, disc, now), s).ok
    ensures var k := Key(ExternalSecret, app.ns, app.name + "-" + es.name);
            var slot := Get(RunAll(app, Program(app, disc, now), s).objs, k);
            slot.Some? &&
            slot.value.nudge == if k in s && s[k].ready == Some(false) then Some(At(now / 1_000_000_000)) else None
  {
    FinalStamp(app, disc, now, s, es);
  }

  lemma {:induction false} RetryOnExternal(app: App, disc: Discovery, now: int, es: ExternalSecretMount, cur: Slot)
    requires disc.externalSecrets && es in app.spec.externalSecrets
    requires cur.Some? && cur.value.nudge == None
    ensures Fold(app, RetryOps(app, disc, now), ExternalKey(app, es), cur)
            == Left(if cur.value.ready == Some(false)
                    then Some(cur.value.(nudge := Some(At(now / 1_000_000_000)))) else cur)
  {
    var k := ExternalKey(app, es);
    ExternalNudgesHave(app, app.spec.externalSecrets, now, es);
    ExternalNudgesNow(app, app.spec.externalSecrets, now);
    NudgeList(app, RetryOps(app, disc, now), now, k, cur);
  }

  /** Concretely: two runs one second apart both nudge. */
  lemma {:induction false} ExternalSecretsAreNotThrottled(app: App, disc: Discovery, now: int, s: Objs,
                                                          es: ExternalSecretMount)
    requires !app.spec.paused && disc.externalSecrets && es in app.spec.externalSecrets
    requires RunAll(app, Program(app, disc, now), s).ok
    requires ExternalKey(app, es) in s && s[ExternalKey(app, es)].ready == Some(false)
    ensures var k := ExternalKey(app, es);
            var t := RunAll(app, Program(app, disc, now), s).objs;
            var u := RunAll(app, Program(app, disc, now + 1_000_000_000), t);
            u.ok && k in t && k in u.objs && t[k].nudge == Some(At(now / 1_000_000_000)) &&
            u.objs[k].nudge == Some(At(now / 1_000_000_000 + 1))
  {
    var k := ExternalKey(app, es);
    var t := RunAll(app, Program(app, disc, now), s).objs;
    SecondRunSucceeds(app, disc, now, now + 1_000_000_000, s);
    FinalStamp(app, disc, now, s, es);
    FinalStamp(app, disc, now + 1_000_000_000, t, es);
  }

  // ----- SecretStores -----

  /** A call that nudges k stamps it exactly when it is known not to be Ready and its stamp is missing, unreadable or
      at least 30 s old, and leaves it as it is otherwise. */
  lemma {:induction false} NudgeExactly(app: App, r: Run, pick: string, k: Key, now: int)
    requires r.ops != [] && r.ops[0] == Nudge(k, now) && k in r.objs
    ensures var o := r.objs[k];
            k in Step(app, r, pick).objs &&
            Step(app, r, pick).objs[k] ==
              if o.ready == Some(false) &&
                 (o.nudge.None? || o.nudge.value.Unreadable? || now >= (o.nudge.value.second + 30) * 1_000_000_000)
              then o.(nudge := Some(At(now / 1_000_000_000))) else o
  {
  }

  /** Steps 2 and 4 alone decide a SecretStore. */
  lemma {:induction false} StoreFold(app: App, disc: Discovery, now: int, k: Key, cur: Slot)
    requires !app.spec.paused && k.kind == SecretStore
    requires Fold(app, StoreOps(app, disc), k, cur).Left?
    ensures Fold(app, Program(app, disc, now), k, cur)
            == Fold(app, RetryOps(app, disc, now), k, Fold(app, StoreOps(app, disc), k, cur).slot)
  {
    var segs := Segments(app, disc, now);
    forall j | 0 <= j < STEPS && j != 2 && j != RETRY_STEP
      ensures Avoids(segs[j], SecretStore)
    {
      SegmentsAreProper(app, disc, now, j);
    }
    AroundTwo(app, segs, 2, RETRY_STEP, k, cur);
  }

  /** In a list of segments two of which alone concern k. */
  lemma {:induction false} AroundTwo(app: App, segs: seq<seq<Op>>, i: nat, j: nat, k: Key, cur: Slot)
    requires i < j < |segs| && Fold(app, segs[i], k, cur).Left?
    requires forall m :: 0 <= m < |segs| && m != i && m != j ==> Avoids(segs[m], k.kind)
    ensures Fold(app, Flatten(segs), k, cur) == Fold(app, segs[j], k, Fold(app, segs[i], k, cur).slot)
  {
    var mid, tail := Fold(app, segs[i], k, cur).slot, segs[i + 1..];
    SplitAt(segs, i);
    AvoidsFlatten(segs[..i], k.kind);
    FoldAvoids(app, Flatten(segs[..i]), k, cur);
    FoldAppend(app, Flatten(segs[..i]), segs[i] + Flatten(tail), k, cur);
    FoldAppend(app, segs[i], Flatten(tail), k, cur);
    FoldExactly(app, tail, j - i - 1, k, mid);
  }

  lemma {:induction false} NudgesOfOthers(app: App, nudges: seq<Op>, k: Key, cur: Slot)
    requires forall op :: op in nudges ==> op.Nudge? && op.key != k
    ensures Fold(app, nudges, k, cur) == Left(cur)
  {
    if nudges != [] {
      assert nudges[0].Nudge? && nudges[0].key != k;
      NudgesOfOthers(app, nudges[1..], k, cur);
    }
  }

  /** What the retry step does to the store that the spec declares. */
  lemma {:induction false} RetryOnStore(app: App, disc: Discovery, now: int, k: Key, cur: Slot)
    requires app.spec.secretStore.Some? && disc.secretStores && app.spec.externalSecrets != []
    requires k == Key(SecretStore, app.ns, app.spec.secretStore.value.name)
    ensures Fold(app, RetryOps(app, disc, now), k, cur) == Left(Stamped(cur, now))
  {
    var nudges := if disc.externalSecrets then ExternalNudges(app, app.spec.externalSecrets, now) else [];
    assert RetryOps(app, disc, now) == [Nudge(k, now)] + nudges;
    assert ([Nudge(k, now)] + nudges)[1..] == nudges;
    NudgesOfOthers(app, nudges, k, Stamped(cur, now));
  }

  /** What a reconcile makes of the SecretStore that its spec declares, when that is there and there are external
      secrets: a stamp exactly when it is known not to be Ready and its last stamp is missing, unreadable or at least
      30 s old; nothing otherwise. */
  lemma {:induction false} StoreStampedExactly(app: App, disc: Discovery, now: int, s: Objs, k: Key)
    requires !app.spec.paused && RunAll(app, Program(app, disc, now), s).ok && k in s
    requires app.spec.secretStore.Some? && disc.secretStores && app.spec.externalSecrets != []
    requires k == Key(SecretStore, app.ns, app.spec.secretStore.value.name)
    ensures var t, o := RunAll(app, Program(app, disc, now), s).objs, s[k];
            k in t &&
            t[k] == if o.ready == Some(false) &&
                       (o.nudge.None? || o.nudge.value.Unreadable? ||
                        now >= (o.nudge.value.second + 30) * 1_000_000_000)
                    then o.(nudge := Some(At(now / 1_000_000_000))) else o
  {
    var prog := Program(app, disc, now);
    forall op | op in prog
      ensures Plain(op, SecretStore)
    {
      var i := ProgramOps(app, disc, now, op);
    }
    RunSlots(app, prog, s, k);
    Stores.EnsuredSlot(app, disc, app.spec.secretStore.value, StoreOp(app, app.spec.secretStore.value), Get(s, k));
    StoreFold(app, disc, now, k, Get(s, k));
    RetryOnStore(app, disc, now, k, Get(s, k));
  }
}
