/**
 What the operator does to objects that are not its own, and what it leaves when an AppDefinition is deleted:
 which update discipline each internal/controller/reconcile_*.go file uses, seen from the other side.
 */
module Survival {
  import opened Common
  import opened Spec
  import opened Cluster
  import opened Desired
  import opened Convergence
  import opened Recovery
  import opened Fixpoint
  import opened History

  // ----- Objects of others -----

  /** The spec has the object of this name replaced whole or deleted by name. */
  predicate TakenByName(app: App, disc: Discovery, k: Key) {
    k.ns == app.ns &&
    match k.kind
    case ExternalSecret => disc.externalSecrets && k.name in WriteNames(ExternalWrites(app, app.spec.externalSecrets))
    case Middleware =>
      disc.middlewares.Some? &&
      k.name in WriteNames(MiddlewareWrites(app, disc.middlewares.value, app.spec.domains))
    case ServiceMonitor => disc.serviceMonitors && k == MonitorKey(app)
    case Service => k.name == app.name && ServicePorts(app) == []
    case Hpa => k.name == app.name && (app.spec.autoscaling.None? || !app.spec.autoscaling.value.enabled)
    case _ => false
  }

  /** Writes or deletes the object of key k by its name, whoever controls it. */
  predicate Takes(op: Op, k: Key) {
    (op.Apply? || op.Guarded? || op.Replace? || op.Drop?) && op.key == k
  }

  /** Gone, or the app's. */
  predicate Taken(app: App, slot: Slot) {
    slot.None? || slot.value.owner == Some(Me(app))
  }

  predicate ForeignTo(app: App, slot: Slot) {
    slot.Some? && slot.value.owner != Some(Me(app)) && Sane(app, slot)
  }

  lemma {:induction false} TouchForeign(app: App, i: nat, op: Op, k: Key, cur: Slot, orig: Slot)
    requires Proper(app, i, op) && i != RETRY_STEP && ForeignTo(app, orig)
    requires SameButNudge(cur, orig) || (Taken(app, cur) && k.kind !in {SecretStore, ServiceAccount})
    requires Touch(app, op, k, cur, None).Left?
    ensures var slot := Touch(app, op, k, cur, None).slot;
            if Takes(op, k) then Taken(app, slot)
            else if SameButNudge(cur, orig) then SameButNudge(slot, orig) else Taken(app, slot)
    ensures Takes(op, k) ==> k.kind !in {SecretStore, ServiceAccount}
  {
  }

  /** The operations of one step leave a foreign object as it is exactly when none takes it. */
  lemma {:induction false} FoldForeign(app: App, i: nat, ops: seq<Op>, k: Key, cur: Slot, orig: Slot)
    requires ProperStep(app, i, ops) && i != RETRY_STEP && ForeignTo(app, orig)
    requires SameButNudge(cur, orig) || (Taken(app, cur) && k.kind !in {SecretStore, ServiceAccount})
    requires Fold(app, ops, k, cur).Left?
    ensures var slot := Fold(app, ops, k, cur).slot;
            if SameButNudge(cur, orig) && (forall op :: op in ops ==> !Takes(op, k)) then SameButNudge(slot, orig)
            else Taken(app, slot)
  {
    if ops != [] {
      assert Proper(app, i, ops[0]);
      TouchForeign(app, i, ops[0], k, cur, orig);
      FoldForeign(app, i, ops[1..], k, Touch(app, ops[0], k, cur, None).slot, orig);
      assert ops == [ops[0]] + ops[1..];
    }
  }

  lemma {:induction false} ReplacedIsNamed(app: App, disc: Discovery, now: int, op: Op, k: Key)
    requires k.kind in {ExternalSecret, Middleware} && op in StepOps(app, disc, now, StepOf(k.kind))
    requires op.Replace? && op.key == k
    ensures TakenByName(app, disc, k)
  {
    var seg := StepOps(app, disc, now, StepOf(k.kind));
    assert Served(disc, k.kind);
    PrunedSegment(app, disc, now, k.kind);
    var writes := WritesOf(app, disc, k.kind);
    assert seg == writes + [seg[|seg| - 1]];
    WritesClaim(app, writes, k.kind);
  }

  lemma {:induction false} SingleIsNamed(app: App, disc: Discovery, now: int, op: Op, k: Key)
    requires k.kind in {Service, Hpa, ServiceMonitor} && op in StepOps(app, disc, now, StepOf(k.kind))
    requires (op.Replace? || op.Drop?) && op.key == k
    ensures TakenByName(app, disc, k)
  {
  }

  lemma {:induction false} TakesMeans(app: App, disc: Discovery, now: int, op: Op, k: Key)
    requires op in StepOps(app, disc, now, StepOf(k.kind)) && Takes(op, k)
    ensures TakenByName(app, disc, k) || Claimed(app, k)
  {
    SegmentsAreProper(app, disc, now, StepOf(k.kind));
    assert Proper(app, StepOf(k.kind), op);
    if Claims(op) {
      StepClaims(app, disc, now, StepOf(k.kind), op);
    } else if k.kind in {ExternalSecret, Middleware} {
      ReplacedIsNamed(app, disc, now, op, k);
    } else {
      SingleIsNamed(app, disc, now, op, k);
    }
  }

  lemma {:induction false} NamedIsReplaced(app: App, disc: Discovery, now: int, k: Key) returns (op: Op)
    requires k.kind in {ExternalSecret, Middleware} && TakenByName(app, disc, k)
    ensures op in StepOps(app, disc, now, StepOf(k.kind)) && Takes(op, k)
  {
    var seg, writes := StepOps(app, disc, now, StepOf(k.kind)), WritesOf(app, disc, k.kind);
    PrunedSegment(app, disc, now, k.kind);
    assert seg == writes + [seg[|seg| - 1]];
    WriteNamesMean(writes, k.name);
    op :| op in writes && (op.Apply? || op.Replace?) && op.key.name == k.name;
    assert IsWrite(app, op, k.kind);
  }

  lemma {:induction false} NamedSingle(app: App, disc: Discovery, now: int, k: Key) returns (op: Op)
    requires k.kind in {Service, Hpa, ServiceMonitor} && TakenByName(app, disc, k)
    ensures op in StepOps(app, disc, now, StepOf(k.kind)) && Takes(op, k)
  {
    op := StepOps(app, disc, now, StepOf(k.kind))[0];
  }

  lemma {:induction false} NamedIsTaken(app: App, disc: Discovery, now: int, k: Key) returns (op: Op)
    requires TakenByName(app, disc, k) || Claimed(app, k)
    ensures op in StepOps(app, disc, now, StepOf(k.kind)) && Takes(op, k)
  {
    if Claimed(app, k) {
      op := ClaimedIsApplied(app, disc, now, k);
    } else if k.kind in {ExternalSecret, Middleware} {
      op := NamedIsReplaced(app, disc, now, k);
    } else {
      op := NamedSingle(app, disc, now, k);
    }
  }

  lemma {:induction false} StepForeign(app: App, disc: Discovery, now: int, k: Key, cur: Slot)
    requires ForeignTo(app, cur) && Fold(app, StepOps(app, disc, now, StepOf(k.kind)), k, cur).Left?
    ensures var slot := Fold(app, StepOps(app, disc, now, StepOf(k.kind)), k, cur).slot;
            if TakenByName(app, disc, k) || Claimed(app, k) then Taken(app, slot) else SameButNudge(slot, cur)
  {
    var ops := StepOps(app, disc, now, StepOf(k.kind));
    SegmentsAreProper(app, disc, now, StepOf(k.kind));
    FoldForeign(app, StepOf(k.kind), ops, k, cur, cur);
    if TakenByName(app, disc, k) || Claimed(app, k) {
      var op := NamedIsTaken(app, disc, now, k);
    } else {
      forall op | op in ops
        ensures !Takes(op, k)
      {
        if Takes(op, k) {
          TakesMeans(app, disc, now, op, k);
        }
      }
    }
  }

  /** What a successful reconcile does to an object that the app does not control: it is as it was, but for a nudge,
      if and only if the spec neither claims its name nor has it replaced or deleted by name; otherwise it is the
      app's afterwards, or gone. */
  lemma {:induction false} ForeignSurvivesExactly(app: App, disc: Discovery, now: int, s: Objs, k: Key)
    requires !app.spec.paused && RunAll(app, Program(app, disc, now), s).ok && ForeignTo(app, Get(s, k))
    ensures var slot := Get(RunAll(app, Program(app, disc, now), s).objs, k);
            (SameButNudge(slot, Get(s, k)) <==> !TakenByName(app, disc, k) && !Claimed(app, k)) &&
            (SameButNudge(slot, Get(s, k)) || Taken(app, slot))
  {
    if k.kind == Deployment {
      FinalDeployment(app, disc, now, s);
    } else {
      FinalSlot(app, disc, now, s, k);
      StepForeign(app, disc, now, k, Get(s, k));
    }
  }

  /** So of the objects that somebody else controls, whatever the spec asks for, exactly those survive a successful
      reconcile that are not taken by name: SecretStores and accounts always do, and what CreateOrUpdate writes. */
  lemma {:induction false} ControlledSurvivesExactly(app: App, disc: Discovery, now: int, s: Objs, k: Key)
    requires !app.spec.paused && RunAll(app, Program(app, disc, now), s).ok
    requires (forall j :: Sane(app, Get(s, j))) && Blocked(app, Get(s, k))
    ensures SameButNudge(Get(RunAll(app, Program(app, disc, now), s).objs, k), Get(s, k)) <==>
              !TakenByName(app, disc, k)
  {
    SucceedsIffUnblocked(app, disc, now, s);
    ForeignSurvivesExactly(app, disc, now, s, k);
  }

  // ----- What deleting an AppDefinition leaves -----

  /** The account or store of a spec that shares it. */
  predicate SharedKey(app: App, k: Key) {
    app.spec.secretStore.Some? && !AppScoped(app.spec.secretStore.value) &&
    (k == AccountOp(app, app.spec.secretStore.value).key || k == StoreOp(app, app.spec.secretStore.value).key)
  }

  /** Where an object comes from: it is gone, or the app's, or was there before, or is a shared store or account. */
  predicate Traced(app: App, slot: Slot, orig: Slot, shared: bool) {
    Taken(app, slot) || SameButNudge(slot, orig) || (shared && slot.value.owner == None)
  }

  /** What a run may have in hand, with what it may create. */
  ghost predicate Accountable(app: App, op: Op, k: Key, shared: bool) {
    InHand(app, op) &&
    (op.Ensure? && op.key == k ==> op.want.owner == Some(Me(app)) || (shared && op.want.owner == None))
  }

  lemma {:induction false} TouchTraced(app: App, op: Op, k: Key, cur: Slot, synced: Option<string>, orig: Slot,
                                       shared: bool)
    requires Accountable(app, op, k, shared) && Traced(app, cur, orig, shared)
    ensures Touch(app, op, k, cur, synced).Left? ==> Traced(app, Touch(app, op, k, cur, synced).slot, orig, shared)
  {
  }

  lemma {:induction false} StepsTraced(app: App, r: Run, picks: seq<string>, k: Key, orig: Slot, shared: bool)
    requires forall op :: op in r.ops ==> Accountable(app, op, k, shared)
    requires Traced(app, Get(r.objs, k), orig, shared)
    ensures forall op :: op in Steps(app, r, picks).ops ==> Accountable(app, op, k, shared)
    ensures Traced(app, Get(Steps(app, r, picks).objs, k), orig, shared)
  {
    if picks != [] {
      var init, pick := picks[..|picks| - 1], picks[|picks| - 1];
      StepsTraced(app, r, init, k, orig, shared);
      StepsNeverBlock(app, r, picks);
      var m := Steps(app, r, init);
      if m.ops != [] {
        assert Accountable(app, m.ops[0], k, shared);
        StepSlots(app, m, pick, k);
        TouchTraced(app, m.ops[0], k, Get(m.objs, k), Synced(app, m.objs), orig, shared);
      }
    }
  }

  lemma {:induction false} EnsuresAccount(app: App, disc: Discovery, op: Op)
    requires op in StoreOps(app, disc)
    ensures op.Ensure? && (op.want.owner == Some(Me(app)) || (SharedKey(app, op.key) && op.want.owner == None))
  {
  }

  lemma {:induction false} ProgramAccounts(app: App, disc: Discovery, now: int, k: Key, op: Op)
    requires op in Program(app, disc, now)
    ensures Accountable(app, op, k, SharedKey(app, k))
  {
    var i := ProgramOps(app, disc, now, op);
    if op.Ensure? {
      assert i == 2;
      EnsuresAccount(app, disc, op);
    }
  }

  /** Some version of the app shares the object. */
  ghost predicate SharedIn(history: seq<Episode>, k: Key) {
    exists e :: e in history && SharedKey(e.app, k)
  }

  lemma {:induction false} HistoryTraced(app: App, history: seq<Episode>, s: Objs, k: Key)
    requires forall e :: e in history ==> SameApp(e.app, app)
    ensures Traced(app, Get(After(history, s), k), Get(s, k), SharedIn(history, k))
  {
    if history != [] {
      var init, e := history[..|history| - 1], history[|history| - 1];
      HistoryTraced(app, init, s, k);
      assert history == init + [e];
      assert SharedIn(init, k) || SharedKey(e.app, k) ==> SharedIn(history, k);
      var start := Start(e.app, e.disc, e.now, After(init, s));
      forall op | op in start.ops
        ensures Accountable(e.app, op, k, SharedIn(history, k))
      {
        ProgramAccounts(e.app, e.disc, e.now, k, op);
      }
      assert Me(e.app) == Me(app);
      StepsTraced(e.app, start, e.picks, k, Get(s, k), SharedIn(history, k));
    }
  }

  /** Deletion is clean: after any history of reconciles of an app under changing specs, each cut short anywhere, the
      garbage collection of what the app controls leaves only objects that were there before, as they were but for
      a nudge, and the stores and accounts that some of its specs shared. */
  lemma {:induction false} DeletionLeavesNothing(app: App, history: seq<Episode>, s: Objs, k: Key)
    requires forall e :: e in history ==> SameApp(e.app, app)
    requires k in Collected(After(history, s), app.uid)
    ensures SameButNudge(Get(After(history, s), k), Get(s, k)) ||
            (SharedIn(history, k) && After(history, s)[k].owner == None)
  {
    HistoryTraced(app, history, s, k);
  }
}
