/**
 The watches of internal/controller/appdefinition_controller.go: which changes of ESO objects wake the
 reconciler, which AppDefinitions they wake, and what becomes of the objects that several
 AppDefinitions share.

 The API server raises the generation of a custom resource exactly when its spec changes, and never
 that of a ServiceAccount; status is written by ESO alone.
 */
module Watches {
  import opened Common
  import opened Spec
  import opened Pod
  import opened Cluster
  import opened History
  import opened Desired
  import opened Convergence
  import opened Recovery
  import opened Fixpoint

  // ----- esoReadyStatus -----

  /** An element of status.conditions; Malformed is one that is not an object. */
  datatype Condition = Malformed | Condition(kind: string, status: string)

  predicate IsReady(c: Condition) {
    c.Condition? && c.kind == "Ready"
  }

  predicate FirstReady(cs: seq<Condition>, i: int) {
    0 <= i < |cs| && IsReady(cs[i]) && forall j :: 0 <= j < i ==> !IsReady(cs[j])
  }

  /** esoReadyStatus: the first Ready condition decides. None stands for absent conditions. */
  method EsoReadyStatus(conditions: Option<seq<Condition>>) returns (known: bool, ready: bool)
    ensures known <==> conditions.Some? && exists i :: 0 <= i < |conditions.value| && IsReady(conditions.value[i])
    ensures ready <==>
              conditions.Some? && exists i :: FirstReady(conditions.value, i) && conditions.value[i].status == "True"
  {
    if conditions.None? {
      return false, false;
    }
    var cs := conditions.value;
    for i := 0 to |cs|
      invariant forall j :: 0 <= j < i ==> !IsReady(cs[j])
    {
      if cs[i].Malformed? || cs[i].kind != "Ready" {
        continue;
      }
      return true, cs[i].status == "True";
    }
    return false, false;
  }

  // ----- esoDependencyPredicate -----

  const WATCHED := {ServiceAccount, SecretStore, ExternalSecret}

  /** Whether the change of a watched object reaches the reconciler: deletions, spec edits, and changes
      of the Ready condition of custom resources; not creations, nor metadata. */
  predicate Wakes(kind: Kind, before: Slot, after: Slot) {
    kind in WATCHED && before.Some? &&
    (after.None? ||
     (kind != ServiceAccount && (before.value.body != after.value.body || before.value.ready != after.value.ready)))
  }

  /** The events that reach the reconciler: the deletion of an account, store or external secret; a change of what a
      store or external secret asks for; a change of its Ready condition. Nothing else does, a creation, an edit of
      labels or annotations, or a nudge in particular. */
  lemma {:induction false} WakesExactly(kind: Kind, before: Obj, after: Obj)
    ensures Wakes(kind, Some(before), None) <==> kind == ServiceAccount || kind == SecretStore || kind == ExternalSecret
    ensures !Wakes(kind, None, Some(after))
    ensures Wakes(kind, Some(before), Some(after)) <==>
              (kind == SecretStore || kind == ExternalSecret) &&
              (before.body != after.body || before.ready != after.ready)
  {
  }

  // ----- No self-triggering -----

  /** No operation of the list, run from s, wakes the reconciler. */
  ghost predicate Quiet(app: App, ops: seq<Op>, s: Objs) {
    ops != [] ==>
      (forall k: Key :: !Wakes(k.kind, Get(s, k), Get(Exec(app, ops[0], s).objs, k))) &&
      (Exec(app, ops[0], s).ok ==> Quiet(app, ops[1..], Exec(app, ops[0], s).objs))
  }

  /** External secrets that share a name ask for the same object. */
  ghost predicate SameNameSameBody(app: App) {
    forall a, b :: a in app.spec.externalSecrets && b in app.spec.externalSecrets && a.name == b.name ==>
      ExternalBody(app, a) == ExternalBody(app, b)
  }

  /** Every ExternalSecret of the spec that exists is as the spec renders it, and none is left to prune. */
  ghost predicate Settled(app: App, s: Objs) {
    (forall es :: es in app.spec.externalSecrets && ExternalKey(app, es) in s ==>
      s[ExternalKey(app, es)].body == ExternalBody(app, es)) &&
    (forall n :: Managed(app, Get(s, Key(ExternalSecret, app.ns, n))) ==>
      n in WriteNames(ExternalWrites(app, app.spec.externalSecrets)))
  }

  /** What a reconcile does to watched objects. */
  ghost predicate Gentle(app: App, op: Op) {
    !op.Sweep? &&
    (OpKind(op) in WATCHED ==>
      (op.Ensure? && op.key.kind != ExternalSecret) || op.Nudge? ||
      (op.Replace? && exists es :: es in app.spec.externalSecrets && op == ExternalWrite(app, es)) ||
      op == Prune(ExternalSecret, WriteNames(ExternalWrites(app, app.spec.externalSecrets))))
  }

  lemma {:induction false} ExternalOpsAreGentle(app: App, disc: Discovery, op: Op)
    requires op in ExternalOps(app, disc)
    ensures Gentle(app, op)
  {
    ExternalsWritten(app, app.spec.externalSecrets);
  }

  lemma {:induction false} OtherStepsAreGentle(app: App, i: nat, op: Op)
    requires Proper(app, i, op) && i != 3
    ensures Gentle(app, op)
  {
  }

  lemma {:induction false} ProgramIsGentle(app: App, disc: Discovery, now: int, op: Op)
    requires op in Program(app, disc, now)
    ensures Gentle(app, op)
  {
    var i := ProgramOps(app, disc, now, op);
    if i == 3 {
      ExternalOpsAreGentle(app, disc, op);
    } else {
      OtherStepsAreGentle(app, i, op);
    }
  }

  lemma {:induction false} ExternalIsNamed(app: App, es: ExternalSecretMount)
    requires es in app.spec.externalSecrets
    ensures ExternalKey(app, es).name in WriteNames(ExternalWrites(app, app.spec.externalSecrets))
  {
    ExternalsWritten(app, app.spec.externalSecrets);
    WriteNamesMean(ExternalWrites(app, app.spec.externalSecrets), ExternalKey(app, es).name);
    assert ExternalWrite(app, es) in ExternalWrites(app, app.spec.externalSecrets);
  }

  lemma {:induction false} SameName(app: App, a: ExternalSecretMount, b: ExternalSecretMount)
    requires ExternalKey(app, a) == ExternalKey(app, b)
    ensures a.name == b.name
  {
    PrefixInjective(app.name + "-", a.name, b.name);
  }

  lemma {:induction false} GentleStep(app: App, op: Op, s: Objs)
    requires Gentle(app, op) && Settled(app, s) && SameNameSameBody(app)
    ensures Settled(app, Exec(app, op, s).objs)
    ensures forall k: Key :: !Wakes(k.kind, Get(s, k), Get(Exec(app, op, s).objs, k))
  {
    var t := Exec(app, op, s).objs;
    forall k: Key | k.kind in WATCHED
      ensures !Wakes(k.kind, Get(s, k), Get(t, k))
      ensures k.kind == ExternalSecret && k.ns == app.ns && Managed(app, Get(t, k)) ==>
                k.name in WriteNames(ExternalWrites(app, app.spec.externalSecrets))
      ensures forall es :: es in app.spec.externalSecrets && ExternalKey(app, es) == k && k in t ==>
                t[k].body == ExternalBody(app, es)
    {
      ExecSlots(app, op, s, k);
      if op.Replace? && op.key == k {
        var es :| es in app.spec.externalSecrets && op == ExternalWrite(app, es);
        ExternalIsNamed(app, es);
        forall e | e in app.spec.externalSecrets && ExternalKey(app, e) == k
          ensures ExternalBody(app, e) == ExternalBody(app, es)
        {
          SameName(app, e, es);
        }
      } else {
        GentleTouch(app, op, k, Get(s, k), Synced(app, s));
        assert k.kind == ExternalSecret && k.ns == app.ns ==> k == Key(ExternalSecret, app.ns, k.name);
      }
    }
  }

  lemma {:induction false} GentleTouch(app: App, op: Op, k: Key, cur: Slot, synced: Option<string>)
    requires Gentle(app, op) && k.kind in WATCHED && !(op.Replace? && op.key == k)
    requires k.kind == ExternalSecret && k.ns == app.ns && Managed(app, cur) ==>
               k.name in WriteNames(ExternalWrites(app, app.spec.externalSecrets))
    ensures match Touch(app, op, k, cur, synced)
            case Refused => true
            case Left(slot) => !Wakes(k.kind, cur, slot) &&
                               (cur.Some? ==> slot.Some? && Managed(app, slot) == Managed(app, cur)) &&
                               (k.kind == ExternalSecret ==> slot.Some? == cur.Some?)
  {
  }

  lemma {:induction false} SettledIsQuiet(app: App, ops: seq<Op>, s: Objs)
    requires forall op :: op in ops ==> Gentle(app, op)
    requires Settled(app, s) && SameNameSameBody(app)
    ensures Quiet(app, ops, s)
  {
    if ops != [] {
      GentleStep(app, ops[0], s);
      SettledIsQuiet(app, ops[1..], Exec(app, ops[0], s).objs);
    }
  }

  lemma {:induction false} WriteIsExternal(app: App, op: Op) returns (e: ExternalSecretMount)
    requires op in ExternalWrites(app, app.spec.externalSecrets)
    ensures e in app.spec.externalSecrets && op == ExternalWrite(app, e)
  {
    ExternalsWritten(app, app.spec.externalSecrets);
    e :| e in app.spec.externalSecrets && op == ExternalWrite(app, e);
  }

  /** After a successful run every external secret of the spec is there as some entry of its name
      renders it. */
  lemma {:induction false} RenderedBy(app: App, disc: Discovery, now: int, s: Objs, es: ExternalSecretMount)
      returns (e: ExternalSecretMount)
    requires !app.spec.paused && disc.externalSecrets && RunAll(app, Program(app, disc, now), s).ok
    requires es in app.spec.externalSecrets
    ensures ExternalKey(app, es) in RunAll(app, Program(app, disc, now), s).objs
    ensures e in app.spec.externalSecrets && ExternalKey(app, e) == ExternalKey(app, es)
    ensures RunAll(app, Program(app, disc, now), s).objs[ExternalKey(app, es)].body == ExternalBody(app, e)
  {
    Converged(app, disc, now, s, ExternalKey(app, es));
    ExternalIsNamed(app, es);
    e := WriteIsExternal(app, LastOn(ExternalWrites(app, app.spec.externalSecrets), ExternalKey(app, es)).value);
  }

  lemma {:induction false} AfterRun(app: App, disc: Discovery, now: int, s: Objs, es: ExternalSecretMount)
    requires !app.spec.paused && disc.externalSecrets && RunAll(app, Program(app, disc, now), s).ok
    requires es in app.spec.externalSecrets
    ensures ExternalKey(app, es) in RunAll(app, Program(app, disc, now), s).objs
    ensures SameNameSameBody(app) ==>
              RunAll(app, Program(app, disc, now), s).objs[ExternalKey(app, es)].body == ExternalBody(app, es)
  {
    var e := RenderedBy(app, disc, now, s, es);
    SameName(app, e, es);
  }

  lemma {:induction false} NothingToPrune(app: App, disc: Discovery, now: int, s: Objs, n: string)
    requires !app.spec.paused && disc.externalSecrets && RunAll(app, Program(app, disc, now), s).ok
    ensures Managed(app, Get(RunAll(app, Program(app, disc, now), s).objs, Key(ExternalSecret, app.ns, n)))
            ==> n in WriteNames(ExternalWrites(app, app.spec.externalSecrets))
  {
    Converged(app, disc, now, s, Key(ExternalSecret, app.ns, n));
  }

  lemma {:induction false} RunSettles(app: App, disc: Discovery, now: int, s: Objs, t: Objs)
    requires !app.spec.paused && disc.externalSecrets && RunAll(app, Program(app, disc, now), s) == Outcome(t, true)
    requires SameNameSameBody(app)
    ensures Settled(app, t)
  {
    forall es | es in app.spec.externalSecrets && ExternalKey(app, es) in t
      ensures t[ExternalKey(app, es)].body == ExternalBody(app, es)
    {
      AfterRun(app, disc, now, s, es);
    }
    forall n | Managed(app, Get(t, Key(ExternalSecret, app.ns, n)))
      ensures n in WriteNames(ExternalWrites(app, app.spec.externalSecrets))
    {
      NothingToPrune(app, disc, now, s, n);
    }
  }

  lemma {:induction false} QuietTail(app: App, a: seq<Op>, b: seq<Op>, s: Objs)
    requires Quiet(app, a + b, s) && RunAll(app, a, s).ok
    ensures Quiet(app, b, RunAll(app, a, s).objs)
  {
    if a == [] {
      assert a + b == b;
    } else {
      assert (a + b)[1..] == a[1..] + b;
      QuietTail(app, a[1..], b, Exec(app, a[0], s).objs);
    }
  }

  /** A write that wakes nobody keeps every watched object in being, with its body. */
  lemma {:induction false} QuietWrite(app: App, op: Op, s: Objs, k: Key)
    requires k in s && k.kind == ExternalSecret && !Wakes(k.kind, Get(s, k), Get(Exec(app, op, s).objs, k))
    ensures k in Exec(app, op, s).objs && Exec(app, op, s).objs[k].body == s[k].body
    ensures op.Replace? && op.key == k ==> op.want.body == s[k].body
  {
    ExecSlots(app, op, s, k);
  }

  /** Quiet writes find every object as they would make it. */
  lemma {:induction false} QuietWrites(app: App, ess: seq<ExternalSecretMount>, rest: seq<Op>, s: Objs)
    requires Quiet(app, ExternalWrites(app, ess) + rest, s)
    requires forall es :: es in ess ==> ExternalKey(app, es) in s
    ensures forall es :: es in ess ==> s[ExternalKey(app, es)].body == ExternalBody(app, es)
  {
    if ess != [] {
      var op := ExternalWrite(app, ess[0]);
      var t := QuietHead(app, ess, op, rest, s);
      assert ess == [ess[0]] + ess[1..];
      QuietWrites(app, ess[1..], rest, t);
    }
  }

  /** The first of some quiet writes, and those after it. */
  lemma {:induction false} QuietHead(app: App, ess: seq<ExternalSecretMount>, op: Op, rest: seq<Op>, s: Objs)
      returns (t: Objs)
    requires ess != [] && op == ExternalWrite(app, ess[0]) && Quiet(app, ExternalWrites(app, ess) + rest, s)
    ensures Quiet(app, ExternalWrites(app, ess[1..]) + rest, t)
    ensures forall k: Key :: k in s && k.kind == ExternalSecret ==>
              k in t && t[k].body == s[k].body && (op.key == k ==> op.want.body == s[k].body)
  {
    var tail := ExternalWrites(app, ess[1..]) + rest;
    t := Exec(app, op, s).objs;
    assert ExternalWrites(app, ess) + rest == [op] + tail;
    SequenceSplits(op, tail, []);
    forall k: Key | k in s && k.kind == ExternalSecret
      ensures k in t && t[k].body == s[k].body && (op.key == k ==> op.want.body == s[k].body)
    {
      QuietWrite(app, op, s, k);
    }
  }

  lemma {:induction false} UnchangedBefore(app: App, ops: seq<Op>, s: Objs, kind: Kind)
    requires Avoids(ops, kind) && RunAll(app, ops, s).ok
    ensures forall k: Key :: k.kind == kind ==> Get(RunAll(app, ops, s).objs, k) == Get(s, k)
  {
    forall k: Key | k.kind == kind
      ensures Get(RunAll(app, ops, s).objs, k) == Get(s, k)
    {
      UntouchedSlot(app, ops, s, k);
    }
  }

  lemma {:induction false} AvoidsBefore(app: App, disc: Discovery, now: int)
    ensures Avoids(Flatten(Segments(app, disc, now)[..3]), ExternalSecret)
  {
    var segs := Segments(app, disc, now)[..3];
    forall j | 0 <= j < 3
      ensures Avoids(segs[j], ExternalSecret)
    {
      SegmentsAreProper(app, disc, now, j);
    }
    AvoidsFlatten(segs, ExternalSecret);
  }

  /** The reconcile around its ExternalSecret writes. */
  lemma {:induction false} AroundExternals(app: App, disc: Discovery, now: int)
      returns (before: seq<Op>, after: seq<Op>)
    requires !app.spec.paused && disc.externalSecrets
    ensures Program(app, disc, now) == before + (ExternalWrites(app, app.spec.externalSecrets) + after)
    ensures Avoids(before, ExternalSecret)
  {
    var segs := Segments(app, disc, now);
    var prune := [Prune(ExternalSecret, WriteNames(ExternalWrites(app, app.spec.externalSecrets)))];
    SplitAt(segs, 3);
    AvoidsBefore(app, disc, now);
    before := Flatten(segs[..3]);
    after := prune + Flatten(segs[4..]);
    Regrouped(ExternalWrites(app, app.spec.externalSecrets), prune, Flatten(segs[4..]));
  }

  lemma {:induction false} QuietMeansSame(app: App, disc: Discovery, now: int, s: Objs)
    requires !app.spec.paused && disc.externalSecrets && RunAll(app, Program(app, disc, now), s).ok
    requires forall es :: es in app.spec.externalSecrets ==> ExternalKey(app, es) in s
    requires Quiet(app, Program(app, disc, now), s)
    ensures SameNameSameBody(app)
  {
    var ess := app.spec.externalSecrets;
    var before, after := AroundExternals(app, disc, now);
    RunAppend(app, before, ExternalWrites(app, ess) + after, s);
    QuietTail(app, before, ExternalWrites(app, ess) + after, s);
    var m := RunAll(app, before, s).objs;
    UnchangedBefore(app, before, s, ExternalSecret);
    forall es | es in ess
      ensures ExternalKey(app, es) in m
    {
      assert Get(m, ExternalKey(app, es)) == Get(s, ExternalKey(app, es));
    }
    QuietWrites(app, ess, after, m);
    forall x, y | x in ess && y in ess && x.name == y.name
      ensures ExternalBody(app, x) == ExternalBody(app, y)
    {
      assert ExternalKey(app, x) == ExternalKey(app, y);
    }
  }

  /** No self-triggering, exactly: once a run has succeeded, another run of the unchanged spec makes only
      writes that the watch predicate drops if and only if external secrets that share a name ask for the
      same object. Otherwise the operator wakes itself on every run. */
  lemma {:induction false} SelfTriggersExactly(app: App, disc: Discovery, now: int, later: int, s: Objs)
    requires !app.spec.paused && disc.externalSecrets && RunAll(app, Program(app, disc, now), s).ok
    ensures Quiet(app, Program(app, disc, later), RunAll(app, Program(app, disc, now), s).objs) <==>
              SameNameSameBody(app)
  {
    var t := RunAll(app, Program(app, disc, now), s).objs;
    if SameNameSameBody(app) {
      RunSettles(app, disc, now, s, t);
      forall op | op in Program(app, disc, later)
        ensures Gentle(app, op)
      {
        ProgramIsGentle(app, disc, later, op);
      }
      SettledIsQuiet(app, Program(app, disc, later), t);
    }
    if Quiet(app, Program(app, disc, later), t) {
      SecondRunSucceeds(app, disc, now, later, s);
      forall es | es in app.spec.externalSecrets
        ensures ExternalKey(app, es) in t
      {
        AfterRun(app, disc, now, s, es);
      }
      QuietMeansSame(app, disc, later, t);
    }
  }

  // ----- mapSecretStoreDependencyToAppDefinitions -----

  datatype Request = Request(ns: string, name: string)

  predicate OwnedByApp(o: Obj) {
    o.owner.Some? && o.owner.value.kind == "AppDefinition" && o.owner.value.apiGroup == GROUP
  }

  /** Whether an app shares the object of this key. */
  predicate Shares(k: Key, app: App) {
    app.ns == k.ns && app.spec.secretStore.Some? && NamespaceScoped(app.spec.secretStore.value) &&
    (k.kind == ServiceAccount || app.spec.secretStore.value.name == k.name)
  }

  predicate Shareable(k: Key) {
    k.kind == SecretStore || (k.kind == ServiceAccount && k.name == k.ns)
  }

  /** Whom a change of an object enqueues. */
  ghost predicate Enqueued(k: Key, o: Obj, apps: seq<App>, r: Request) {
    if o.owner.Some? then OwnedByApp(o) && r == Request(k.ns, o.owner.value.name)
    else Shareable(k) && exists app :: app in apps && Shares(k, app) && r == Request(app.ns, app.name)
  }

  /** The watch mapping. */
  method MapDependency(k: Key, o: Obj, apps: seq<App>) returns (requests: seq<Request>)
    ensures forall r :: r in requests <==> Enqueued(k, o, apps, r)
    ensures o.owner.Some? ==> forall r :: r in requests <==>
              o.owner.value.apiGroup == "appdefinition.abexamir.me" && o.owner.value.kind == "AppDefinition" &&
              r == Request(k.ns, o.owner.value.name)
    ensures o.owner.None? ==> forall r :: r in requests <==>
              (k.kind == SecretStore || (k.kind == ServiceAccount && k.name == k.ns)) &&
              exists app :: app in apps && app.ns == k.ns && app.spec.secretStore.Some? &&
                            app.spec.secretStore.value.scope in {"", "Namespace"} &&
                            (k.kind == ServiceAccount || app.spec.secretStore.value.name == k.name) &&
                            r == Request(app.ns, app.name)
  {
    requests := [];
    if o.owner.Some? {
      if o.owner.value.kind == "AppDefinition" && o.owner.value.apiGroup == GROUP {
        requests := [Request(k.ns, o.owner.value.name)];
      }
      return;
    }
    var isStore, isServiceAccount := k.kind == SecretStore, k.kind == ServiceAccount;
    if !isStore && (!isServiceAccount || k.name != k.ns) {
      return;
    }
    for i := 0 to |apps|
      invariant forall r :: r in requests <==>
                  exists app :: app in apps[..i] && Shares(k, app) && r == Request(app.ns, app.name)
    {
      assert apps[..i + 1] == apps[..i] + [apps[i]];
      if apps[i].ns != k.ns {
        continue;
      }
      var store := apps[i].spec.secretStore;
      if store.None? || !(store.value.scope == "" || store.value.scope == "Namespace") {
        continue;
      }
      if isServiceAccount || store.value.name == k.name {
        requests := requests + [Request(apps[i].ns, apps[i].name)];
      }
    }
    assert apps[..|apps|] == apps;
  }

  lemma {:induction false} StoreOpsShape(app: App, disc: Discovery, op: Op)
    requires op in StoreOps(app, disc)
    ensures app.spec.secretStore.Some? && op.key.ns == app.ns &&
            (Shareable(op.key) || AppScoped(app.spec.secretStore.value))
    ensures op.Ensure? && op.want.owner == StoreOwner(app, app.spec.secretStore.value)
    ensures op.key.kind == SecretStore ==> op.key.name == app.spec.secretStore.value.name
  {
  }

  /** Recovery: let app create a store or account, and let a later version of the app's spec still declare
      the object when it is deleted. The app is enqueued if and only if the object was created App-scoped
      or the later spec is not App-scoped: only a switch of scope in between loses the wake-up. */
  lemma {:induction false} RecoveryExactly(app: App, disc: Discovery, later: App, disc': Discovery, op: Op, redo: Op,
                                           o: Obj, apps: seq<App>)
    requires op in StoreOps(app, disc) && redo in StoreOps(later, disc') && redo.key == op.key
    requires SameApp(app, later) && later in apps
    requires forall a, b :: a in apps && b in apps && a.ns == b.ns && a.name == b.name ==> a == b
    requires later.spec.secretStore.value.scope in {"", "Namespace", "App"}
    requires o.owner == op.want.owner
    ensures Enqueued(op.key, o, apps, Request(app.ns, app.name)) <==>
              AppScoped(app.spec.secretStore.value) || !AppScoped(later.spec.secretStore.value)
  {
    StoreOpsShape(app, disc, op);
    StoreOpsShape(later, disc', redo);
    if !AppScoped(app.spec.secretStore.value) {
      if NamespaceScoped(later.spec.secretStore.value) {
        assert Shares(op.key, later);
      }
    }
  }

  /** The Secret that ESO syncs for an external secret carries labels that map it back to the app. */
  predicate MapsToApp(labels: map<string, string>, ns: string, r: Request) {
    "app.kubernetes.io/managed-by" in labels && labels["app.kubernetes.io/managed-by"] == "app-operator" &&
    "app.kubernetes.io/instance" in labels && labels["app.kubernetes.io/instance"] != "" &&
    r == Request(ns, labels["app.kubernetes.io/instance"])
  }

  /** After a successful run the labels that ESO is told to put on a synced Secret wake this app, and no
      other, when the Secret changes. */
  lemma {:induction false} SyncedSecretsWakeTheirApp(app: App, disc: Discovery, now: int, s: Objs,
                                                     es: ExternalSecretMount, r: Request)
    requires !app.spec.paused && disc.externalSecrets && RunAll(app, Program(app, disc, now), s).ok
    requires es in app.spec.externalSecrets && app.name != ""
    ensures var t := RunAll(app, Program(app, disc, now), s).objs;
            var k := ExternalKey(app, es);
            k in t && t[k].body.External? && SyncedKey(app, es.name) == Key(Secret, app.ns, t[k].body.target) &&
            (MapsToApp(t[k].body.targetLabels, app.ns, r) <==> r == Request(app.ns, app.name))
  {
    var e := RenderedBy(app, disc, now, s, es);
    LabelsMap(app, e, r);
  }

  lemma {:induction false} LabelsMap(app: App, e: ExternalSecretMount, r: Request)
    requires app.name != ""
    ensures MapsToApp(ExternalBody(app, e).targetLabels, app.ns, r) <==> r == Request(app.ns, app.name)
  {
  }

  // ----- Shared stores -----

  /** A history in which nobody but operators and the garbage collector touches k. */
  ghost predicate Legal(k: Key, s: Objs, events: seq<Event>)
    decreases |events|
  {
    events != [] ==>
      (match events[0]
       case Call(app, run, _) => run.objs == s && forall op :: op in run.ops ==> InHand(app, op)
       case Collect(_) => true
       case Outside(objs) => Get(objs, k) == Get(s, k)) &&
      Legal(k, Then(s, events[0]), events[1..])
  }

  /** Survival: whatever apps reconcile, and whichever apps are deleted and garbage-collected, a store or
      account without an owner stays, and nothing about it changes except its nudge. */
  lemma {:induction false} SharedObjectsSurvive(k: Key, s: Objs, events: seq<Event>)
    requires k.kind in {SecretStore, ServiceAccount} && k in s && s[k].owner.None?
    requires Legal(k, s, events)
    ensures k in Finally(s, events)
    ensures Bare(Get(Finally(s, events), k)) == Bare(Get(s, k))
    decreases |events|
  {
    if events != [] {
      var e := events[0];
      if e.Call? {
        CallKeepsShared(e.app, e.run, e.pick, k);
      }
      assert k in Then(s, e) && Bare(Get(Then(s, e), k)) == Bare(Get(s, k));
      SharedObjectsSurvive(k, Then(s, e), events[1..]);
    }
  }

  lemma {:induction false} CallKeepsShared(app: App, r: Run, pick: string, k: Key)
    requires k.kind in {SecretStore, ServiceAccount} && k in r.objs
    requires forall op :: op in r.ops ==> InHand(app, op)
    ensures k in Step(app, r, pick).objs && Bare(Get(Step(app, r, pick).objs, k)) == Bare(Get(r.objs, k))
  {
    if r.ops != [] {
      assert InHand(app, r.ops[0]);
      StepSlots(app, r, pick, k);
    }
  }

  /** What a Namespace-scoped spec creates has no owner, so it is shared in this sense; what an App-scoped
      spec creates goes with its app. */
  lemma {:induction false} ScopeDecidesOwner(app: App, disc: Discovery, op: Op, s: Objs)
    requires op in StoreOps(app, disc) && op.key !in s
    ensures var created := Exec(app, op, s).objs;
            op.key in created &&
            (op.key in Collected(created, app.uid) <==> !AppScoped(app.spec.secretStore.value))
  {
    StoreOpsShape(app, disc, op);
  }
}
