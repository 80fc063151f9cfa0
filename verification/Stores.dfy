/**
 SecretStores that several apps of a namespace declare: reconcileSecretStore in
 internal/controller/reconcile_secretstore.go creates what is absent and never updates it, so whoever comes
 first decides, unless all declare the same.
 */
module Stores {
  import opened Common
  import opened Spec
  import opened Cluster
  import opened Desired
  import opened Convergence

  function Ensured(s: Objs, k: Key, want: Obj): Objs {
    if k in s then s else s[k := want]
  }

  /** What the SecretStore step of an app leaves. */
  ghost function StoreStep(app: App, disc: Discovery, s: Objs): Objs {
    RunAll(app, StoreOps(app, disc), s).objs
  }

  lemma {:induction false} EnsureRuns(app: App, op: Op, s: Objs)
    requires op.Ensure?
    ensures Exec(app, op, s) == Outcome(Ensured(s, op.key, op.want), true)
  {
    assert op.key in s ==> s[op.key := s[op.key]] == s;
  }

  lemma {:induction false} TwoEnsures(app: App, x: Op, y: Op, s: Objs)
    requires x.Ensure? && y.Ensure?
    ensures RunAll(app, [x, y], s) == Outcome(Ensured(Ensured(s, x.key, x.want), y.key, y.want), true)
  {
    var t := Ensured(s, x.key, x.want);
    EnsureRuns(app, x, s);
    EnsureRuns(app, y, t);
    assert [x, y][1..] == [y] && [y][1..] == [];
    assert RunAll(app, [y], t) == Outcome(Ensured(t, y.key, y.want), true);
  }

  lemma {:induction false} StepEnsures(app: App, disc: Discovery, s: Objs, store: SecretStoreSpec)
    requires disc.secretStores && app.spec.secretStore == Some(store)
    ensures var x, y := AccountOp(app, store), StoreOp(app, store);
            StoreStep(app, disc, s) == Ensured(Ensured(s, x.key, x.want), y.key, y.want)
  {
    TwoEnsures(app, AccountOp(app, store), StoreOp(app, store), s);
  }

  /** Two parties that ensure an account and a store each: the order matters only where they want different
      objects of one name. */
  lemma {:induction false} EnsuresCommute(s: Objs, x: Key, x': Obj, y: Key, y': Obj, z: Key, z': Obj, w: Key, w': Obj)
    requires x != y && x != w && z != y && z != w
    ensures Ensured(Ensured(Ensured(Ensured(s, x, x'), y, y'), z, z'), w, w')
            == Ensured(Ensured(Ensured(Ensured(s, z, z'), w, w'), x, x'), y, y')
            <==> (x == z && x !in s ==> x' == z') && (y == w && y !in s ==> y' == w')
  {
    var one := Ensured(Ensured(Ensured(Ensured(s, x, x'), y, y'), z, z'), w, w');
    var two := Ensured(Ensured(Ensured(Ensured(s, z, z'), w, w'), x, x'), y, y');
    if x == z && x !in s {
      assert one[x] == x' && two[x] == z';
    }
    if y == w && y !in s {
      assert one[y] == y' && two[y] == w';
    }
  }

  /** The Vault settings that a spec declares for a shared store, defaults filled in. */
  function Filled(ns: string, v: VaultSpec): VaultSpec {
    VaultSpec(v.server, Default(v.path, "secret"), Default(v.version, "v2"), Default(v.authMountPath, "kubernetes"),
              Default(v.role, ns + "-" + ns))
  }

  lemma {:induction false} SameStoreWant(a: App, x: SecretStoreSpec, b: App, y: SecretStoreSpec)
    requires a.ns == b.ns && a.name != b.name
    ensures StoreOp(a, x).want == StoreOp(b, y).want
            <==> !AppScoped(x) && !AppScoped(y) && Filled(a.ns, x.vault) == Filled(b.ns, y.vault)
  {
  }

  lemma {:induction false} SameAccountWant(a: App, x: SecretStoreSpec, b: App, y: SecretStoreSpec)
    requires a.ns == b.ns && a.name != b.name
    ensures AccountOp(a, x).key == AccountOp(b, y).key ==>
              (AccountOp(a, x).want == AccountOp(b, y).want <==> !AppScoped(x) && !AppScoped(y))
    ensures AccountOp(a, x).key == AccountOp(b, y).key <==>
              (!AppScoped(x) && !AppScoped(y)) || (AppScoped(x) && !AppScoped(y) && a.name == a.ns) ||
              (AppScoped(y) && !AppScoped(x) && b.name == b.ns)
  {
  }

  /** The declarations of two apps of a namespace are compatible: a store of one name is shared by both and set up
      alike, and no app keeps the account of the namespace to itself while the other shares it. */
  predicate Compatible(a: App, x: SecretStoreSpec, b: App, y: SecretStoreSpec) {
    (x.name == y.name ==> !AppScoped(x) && !AppScoped(y) && Filled(a.ns, x.vault) == Filled(b.ns, y.vault)) &&
    !(AppScoped(x) && !AppScoped(y) && a.name == a.ns) && !(AppScoped(y) && !AppScoped(x) && b.name == b.ns)
  }

  /** First come, first served, exactly: whichever of two apps of a namespace reconciles first, the stores and
      accounts come out alike from every cluster if and only if the declarations are compatible. */
  lemma {:induction false} OrderIrrelevantExactly(a: App, x: SecretStoreSpec, b: App, y: SecretStoreSpec,
                                                  disc: Discovery)
    requires disc.secretStores && a.ns == b.ns && a.name != b.name
    requires a.spec.secretStore == Some(x) && b.spec.secretStore == Some(y)
    ensures (forall s :: StoreStep(b, disc, StoreStep(a, disc, s)) == StoreStep(a, disc, StoreStep(b, disc, s)))
            <==> Compatible(a, x, b, y)
  {
    forall s
      ensures StoreStep(b, disc, StoreStep(a, disc, s)) == StoreStep(a, disc, StoreStep(b, disc, s))
              <==> AgreeFrom(s, a, x, b, y)
    {
      OrderFrom(s, a, x, b, y, disc);
    }
    SameStoreWant(a, x, b, y);
    SameAccountWant(a, x, b, y);
    if forall s :: StoreStep(b, disc, StoreStep(a, disc, s)) == StoreStep(a, disc, StoreStep(b, disc, s)) {
      var none: Objs := map[];
      assert StoreStep(b, disc, StoreStep(a, disc, none)) == StoreStep(a, disc, StoreStep(b, disc, none));
      assert AgreeFrom(none, a, x, b, y);
    }
  }

  predicate AgreeFrom(s: Objs, a: App, x: SecretStoreSpec, b: App, y: SecretStoreSpec) {
    (AccountOp(a, x).key == AccountOp(b, y).key && AccountOp(a, x).key !in s ==>
      AccountOp(a, x).want == AccountOp(b, y).want) &&
    (StoreOp(a, x).key == StoreOp(b, y).key && StoreOp(a, x).key !in s ==> StoreOp(a, x).want == StoreOp(b, y).want)
  }

  lemma {:induction false} OrderFrom(s: Objs, a: App, x: SecretStoreSpec, b: App, y: SecretStoreSpec, disc: Discovery)
    requires disc.secretStores && a.spec.secretStore == Some(x) && b.spec.secretStore == Some(y)
    ensures StoreStep(b, disc, StoreStep(a, disc, s)) == StoreStep(a, disc, StoreStep(b, disc, s))
            <==> AgreeFrom(s, a, x, b, y)
  {
    var p, q, u, v := AccountOp(a, x), StoreOp(a, x), AccountOp(b, y), StoreOp(b, y);
    StepEnsures(a, disc, s, x);
    StepEnsures(b, disc, StoreStep(a, disc, s), y);
    StepEnsures(b, disc, s, y);
    StepEnsures(a, disc, StoreStep(b, disc, s), x);
    EnsuresCommute(s, p.key, p.want, q.key, q.want, u.key, u.want, v.key, v.want);
  }

  // ----- Delivery -----

  lemma {:induction false} FoldEnsure(app: App, x: Op, k: Key, cur: Slot)
    requires x.Ensure?
    ensures Fold(app, [x], k, cur) == Touch(app, x, k, cur, None)
  {
    assert [x][1..] == [];
  }

  lemma {:induction false} FoldEnsures(app: App, x: Op, y: Op, k: Key, cur: Slot)
    requires x.Ensure? && y.Ensure?
    ensures Fold(app, [x, y], k, cur) == Touch(app, y, k, Touch(app, x, k, cur, None).slot, None)
  {
    assert [x, y][1..] == [y];
    FoldEnsure(app, y, k, Touch(app, x, k, cur, None).slot);
  }

  lemma {:induction false} EnsuredSlot(app: App, disc: Discovery, store: SecretStoreSpec, op: Op, cur: Slot)
    requires app.spec.secretStore == Some(store) && op in StoreOps(app, disc)
    ensures op.Ensure? && Fold(app, StoreOps(app, disc), op.key, cur) == Left(if cur.Some? then cur else Some(op.want))
  {
    if disc.secretStores {
      FoldEnsures(app, AccountOp(app, store), StoreOp(app, store), op.key, cur);
    } else {
      FoldEnsure(app, AccountOp(app, store), op.key, cur);
    }
  }

  /** After a successful reconcile every store and account that the spec declares is there: as it was if it was, but
      for a nudge, and as rendered if not; so an app that is enqueued after a deletion recreates it. */
  lemma {:induction false} StoreDelivered(app: App, disc: Discovery, now: int, s: Objs, op: Op)
    requires !app.spec.paused && RunAll(app, Program(app, disc, now), s).ok && op in StoreOps(app, disc)
    ensures var slot := Get(RunAll(app, Program(app, disc, now), s).objs, op.key);
            op.Ensure? && slot.Some? && SameButNudge(slot, if op.key in s then Get(s, op.key) else Some(op.want))
  {
    EnsuredSlot(app, disc, app.spec.secretStore.value, op, Get(s, op.key));
    assert StepOf(op.key.kind) == 2;
    FinalSlot(app, disc, now, s, op.key);
  }
}
