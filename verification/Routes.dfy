/**
 Agreement between the Middlewares and the Ingresses of a finished reconcile: the references that
 internal/controller/reconcile_ingress.go writes and the objects that
 internal/controller/reconcile_middleware.go leaves.
 */
module Routes {
  import opened Names
  import opened Chain
  import opened Spec
  import opened Cluster
  import opened Desired
  import opened Convergence
  import opened Delivery

  /** The references Traefik reads off an Ingress. */
  function References(o: Obj): seq<string> {
    if CHAIN_KEY in o.annotations then Explicit(o.annotations[CHAIN_KEY]) else []
  }

  /** The Ingress sends its traffic through the Middleware of this name. */
  predicate RefersTo(app: App, o: Obj, middleware: string) {
    (app.ns + "-" + middleware + "@kubernetescrd") in References(o)
  }

  /** The references the user wrote for a domain. */
  function UserRefs(app: App, d: DomainSpec): seq<string> {
    Explicit(ExplicitRaw(app, d))
  }

  predicate PlainApp(app: App) {
    PlainName(app.ns) && PlainName(app.name)
  }

  lemma {:induction false} NativeRefsAreClean(app: App, d: DomainSpec)
    requires PlainApp(app)
    ensures forall x :: x in DomainRefs(app, d) ==> Clean(x)
    ensures forall kind :: kind in EnabledKinds(d) <==>
              exists j :: 0 <= j < |EnabledKinds(d)| && EnabledKinds(d)[j] == kind
  {
    forall x | x in DomainRefs(app, d)
      ensures Clean(x)
    {
      var j: nat :| j < |EnabledKinds(d)| && DomainRefs(app, d)[j] == x;
      NativeRefIsClean(app.ns, app.name, d, EnabledKinds(d)[j]);
    }
  }

  /** Some wanted kind of the domain gives this reference. */
  ghost predicate Native(app: App, d: DomainSpec, ref: string) {
    exists kind :: Wants(d, kind) && ref == NativeRef(app.ns, app.name, d, kind)
  }

  lemma {:induction false} DomainRefsAreNative(app: App, d: DomainSpec, ref: string)
    ensures ref in DomainRefs(app, d) <==> Native(app, d, ref)
  {
    EnabledKindsInChainOrder(d);
    if ref in DomainRefs(app, d) {
      var j: nat :| j < |EnabledKinds(d)| && DomainRefs(app, d)[j] == ref;
      assert EnabledKinds(d)[j] in EnabledKinds(d);
      assert Wants(d, EnabledKinds(d)[j]);
    }
    if Native(app, d, ref) {
      var kind :| Wants(d, kind) && ref == NativeRef(app.ns, app.name, d, kind);
      var j: nat :| j < |EnabledKinds(d)| && EnabledKinds(d)[j] == kind;
      assert DomainRefs(app, d)[j] == ref;
    }
  }

  /** What Traefik reads off the annotations rendered for a domain: the user's references and one for
      every middleware the domain wants, nothing else. */
  lemma {:induction false} RenderedReferences(app: App, d: DomainSpec, o: Obj, ref: string)
    requires PlainApp(app) && o.annotations == IngressAnnotationsFor(app, d)
    ensures ref in References(o) <==> ref in UserRefs(app, d) || Native(app, d, ref)
  {
    DomainRefsAreNative(app, d, ref);
    var base := BaseAnnotations(app, d);
    if EnabledKinds(d) == [] {
      assert CHAIN_KEY !in base ==> UserRefs(app, d) == [] by {
        assert SplitComma("") == [""] && TrimSpace("") == "";
        assert Kept([""]) == [] by { assert [""][..0] == []; }
      }
    } else {
      NativeRefsAreClean(app, d);
      assert DomainRefs(app, d) != [];
      ChainResplits(ExplicitRaw(app, d), DomainRefs(app, d));
      ChainIsClean(ExplicitRaw(app, d), DomainRefs(app, d));
    }
  }

  /** The wanted Middleware of a domain exists, controlled by the app, and is of that kind. */
  lemma {:induction false} WantedMiddlewareExists(app: App, disc: Discovery, now: int, s: Objs, d: DomainSpec,
                                                  kind: MiddlewareKind)
    requires !app.spec.paused && disc.middlewares.Some? && RunAll(app, Program(app, disc, now), s).ok
    requires d in app.spec.domains && Wants(d, kind)
    ensures var slot := Get(RunAll(app, Program(app, disc, now), s).objs, HopKey(app, d, kind));
            Managed(app, slot) && slot.value.body.Hop? && slot.value.body.hop == kind
  {
    var k, writes := HopKey(app, d, kind), WritesOf(app, disc, Middleware);
    EnabledKindsInChainOrder(d);
    MiddlewaresWritten(app, disc.middlewares.value, app.spec.domains);
    assert HopWrite(app, disc.middlewares.value, d, kind) in writes;
    WriteNamesMean(writes, k.name);
    Converged(app, disc, now, s, k);
    var op := LastOn(writes, k).value;
    assert op in writes;
    var e, l :| e in app.spec.domains && l in EnabledKinds(e) && op == HopWrite(app, disc.middlewares.value, e, l);
    MiddlewareNamesAgree(app.name, d.name, d.path, kind, app.name, e.name, e.path, l);
  }

  lemma {:induction false} IngressWriteAt(app: App, op: Op) returns (j: nat)
    requires op in IngressWrites(app, app.spec.domains)
    ensures j < |app.spec.domains| && op == IngressWrite(app, app.spec.domains[j])
  {
    j :| j < |app.spec.domains| && IngressWrites(app, app.spec.domains)[j] == op;
  }

  /** Every Ingress the app controls is that of the last domain with its name. */
  lemma {:induction false} ManagedIngress(app: App, disc: Discovery, now: int, s: Objs, k: Key) returns (i: nat)
    requires !app.spec.paused && RunAll(app, Program(app, disc, now), s).ok
    requires k.kind == Ingress && k.ns == app.ns && Managed(app, Get(RunAll(app, Program(app, disc, now), s).objs, k))
    ensures i < |app.spec.domains| && LastOfName(app, i) && IngressKey(app, app.spec.domains[i]) == k
  {
    Converged(app, disc, now, s, k);
    var j := IngressWriteAt(app, LastOn(IngressWrites(app, app.spec.domains), k).value);
    i := LastIndex(app, j, |app.spec.domains|);
  }

  lemma {:induction false} LastIndex(app: App, j: nat, n: nat) returns (i: nat)
    requires j < n <= |app.spec.domains|
    requires forall m :: n <= m < |app.spec.domains| ==>
               IngressKey(app, app.spec.domains[m]) != IngressKey(app, app.spec.domains[j])
    ensures i < |app.spec.domains| && LastOfName(app, i)
    ensures IngressKey(app, app.spec.domains[i]) == IngressKey(app, app.spec.domains[j])
  {
    if IngressKey(app, app.spec.domains[n - 1]) == IngressKey(app, app.spec.domains[j]) {
      i := n - 1;
    } else {
      i := LastIndex(app, j, n - 1);
    }
  }

  /** No dangling reference: after a successful reconcile every reference on a managed Ingress that the
      user did not write names a Middleware that exists under the app's control, of a kind the domain
      of the Ingress wants. */
  lemma {:induction false} ReferencesResolve(app: App, disc: Discovery, now: int, s: Objs, k: Key, ref: string)
    returns (d: DomainSpec, kind: MiddlewareKind)
    requires !app.spec.paused && disc.middlewares.Some? && PlainApp(app)
    requires RunAll(app, Program(app, disc, now), s).ok
    requires k.kind == Ingress && k.ns == app.ns && Managed(app, Get(RunAll(app, Program(app, disc, now), s).objs, k))
    requires ref in References(Get(RunAll(app, Program(app, disc, now), s).objs, k).value)
    ensures d in app.spec.domains && IngressKey(app, d) == k
    ensures ref !in UserRefs(app, d) ==>
              var hop := Get(RunAll(app, Program(app, disc, now), s).objs, HopKey(app, d, kind));
              Wants(d, kind) && ref == app.ns + "-" + HopKey(app, d, kind).name + "@kubernetescrd" &&
              Managed(app, hop) && hop.value.body.Hop? && hop.value.body.hop == kind
  {
    var i := ManagedIngress(app, disc, now, s, k);
    d := app.spec.domains[i];
    kind := Rewrite;
    IngressDelivered(app, disc, now, s, i);
    RenderedReferences(app, d, Get(RunAll(app, Program(app, disc, now), s).objs, k).value, ref);
    if ref !in UserRefs(app, d) {
      kind :| Wants(d, kind) && ref == NativeRef(app.ns, app.name, d, kind);
      WantedMiddlewareExists(app, disc, now, s, d, kind);
    }
  }

  /** Which Ingresses use a Middleware, exactly: a managed Ingress that no user reference ties to the
      Middleware of (d, kind) refers to it if and only if it is the Ingress of d's name and the last
      domain of that name wants the kind. */
  lemma {:induction false} UsedExactly(app: App, disc: Discovery, now: int, s: Objs, d: DomainSpec,
                                       kind: MiddlewareKind, i: nat)
    requires !app.spec.paused && PlainApp(app) && RunAll(app, Program(app, disc, now), s).ok
    requires i < |app.spec.domains| && LastOfName(app, i)
    requires NativeRef(app.ns, app.name, d, kind) !in UserRefs(app, app.spec.domains[i])
    ensures var e := app.spec.domains[i];
            var ingress := Get(RunAll(app, Program(app, disc, now), s).objs, IngressKey(app, e));
            Managed(app, ingress) &&
            (RefersTo(app, ingress.value, HopKey(app, d, kind).name) <==>
              IngressKey(app, e) == IngressKey(app, d) && Wants(e, kind))
  {
    var e := app.spec.domains[i];
    var ref := NativeRef(app.ns, app.name, d, kind);
    IngressDelivered(app, disc, now, s, i);
    RenderedReferences(app, e, Get(RunAll(app, Program(app, disc, now), s).objs, IngressKey(app, e)).value, ref);
    forall l
      ensures ref == NativeRef(app.ns, app.name, e, l) <==> l == kind && IngressKey(app, e) == IngressKey(app, d)
    {
      NativeRefInjective(app.ns, app.name, d, kind, app.name, e, l);
      MiddlewareNamesAgree(app.name, d.name, d.path, kind, app.name, e.name, e.path, l);
    }
  }

  predicate DistinctIngresses(app: App) {
    forall i, j :: 0 <= i < j < |app.spec.domains| ==>
             IngressKey(app, app.spec.domains[i]) != IngressKey(app, app.spec.domains[j])
  }

  ghost predicate NoUserRefTo(app: App, ref: string) {
    forall d :: d in app.spec.domains ==> ref !in UserRefs(app, d)
  }

  /** Every Middleware the app controls is the one some domain wants, configured by that domain. */
  lemma {:induction false} ManagedMiddleware(app: App, disc: Discovery, now: int, s: Objs, m: Key)
      returns (i: nat, kind: MiddlewareKind)
    requires !app.spec.paused && disc.middlewares.Some? && RunAll(app, Program(app, disc, now), s).ok
    requires m.kind == Middleware && m.ns == app.ns &&
             Managed(app, Get(RunAll(app, Program(app, disc, now), s).objs, m))
    ensures i < |app.spec.domains| && Wants(app.spec.domains[i], kind) && HopKey(app, app.spec.domains[i], kind) == m
    ensures Get(RunAll(app, Program(app, disc, now), s).objs, m).value.body
            == Hop(kind, disc.middlewares.value, HopConfig(app.spec.domains[i], kind))
  {
    Converged(app, disc, now, s, m);
    i, kind := WriteIsHop(app, disc.middlewares.value, LastOn(WritesOf(app, disc, Middleware), m).value);
  }

  lemma {:induction false} WriteIsHop(app: App, legacy: bool, op: Op) returns (i: nat, kind: MiddlewareKind)
    requires op in MiddlewareWrites(app, legacy, app.spec.domains)
    ensures i < |app.spec.domains| && Wants(app.spec.domains[i], kind) &&
            op == HopWrite(app, legacy, app.spec.domains[i], kind)
  {
    MiddlewaresWritten(app, legacy, app.spec.domains);
    var d, l :| d in app.spec.domains && l in EnabledKinds(d) && op == HopWrite(app, legacy, d, l);
    EnabledKindsInChainOrder(d);
    i :| i < |app.spec.domains| && app.spec.domains[i] == d;
    kind := l;
  }

  /** One to one: when the Ingress names are pairwise distinct, every Middleware the app controls is
      referenced by exactly one of its Ingresses, unless the user refers to it too. */
  lemma {:induction false} EveryMiddlewareUsedOnce(app: App, disc: Discovery, now: int, s: Objs, m: Key)
      returns (user: Key)
    requires !app.spec.paused && disc.middlewares.Some? && PlainApp(app) && DistinctIngresses(app)
    requires RunAll(app, Program(app, disc, now), s).ok
    requires m.kind == Middleware && m.ns == app.ns &&
             Managed(app, Get(RunAll(app, Program(app, disc, now), s).objs, m))
    requires NoUserRefTo(app, app.ns + "-" + m.name + "@kubernetescrd")
    ensures forall k: Key :: k.kind == Ingress && k.ns == app.ns &&
                             Managed(app, Get(RunAll(app, Program(app, disc, now), s).objs, k)) ==>
              (RefersTo(app, Get(RunAll(app, Program(app, disc, now), s).objs, k).value, m.name) <==> k == user)
    ensures user.kind == Ingress && user.ns == app.ns &&
            Managed(app, Get(RunAll(app, Program(app, disc, now), s).objs, user))
  {
    var i, kind := ManagedMiddleware(app, disc, now, s, m);
    var d := app.spec.domains[i];
    user := IngressKey(app, d);
    UsedOnce(app, disc, now, s, i, kind, user);
    forall k: Key | k.kind == Ingress && k.ns == app.ns &&
           Managed(app, Get(RunAll(app, Program(app, disc, now), s).objs, k))
      ensures RefersTo(app, Get(RunAll(app, Program(app, disc, now), s).objs, k).value, m.name) <==> k == user
    {
      UsedOnce(app, disc, now, s, i, kind, k);
    }
  }

  lemma {:induction false} UsedOnce(app: App, disc: Discovery, now: int, s: Objs, i: nat, kind: MiddlewareKind, k: Key)
    requires !app.spec.paused && PlainApp(app) && DistinctIngresses(app) && RunAll(app, Program(app, disc, now), s).ok
    requires i < |app.spec.domains| && Wants(app.spec.domains[i], kind)
    requires NoUserRefTo(app, NativeRef(app.ns, app.name, app.spec.domains[i], kind))
    ensures Managed(app, Get(RunAll(app, Program(app, disc, now), s).objs, IngressKey(app, app.spec.domains[i])))
    ensures k.kind == Ingress && k.ns == app.ns &&
            Managed(app, Get(RunAll(app, Program(app, disc, now), s).objs, k)) ==>
              (RefersTo(app, Get(RunAll(app, Program(app, disc, now), s).objs, k).value,
                        HopKey(app, app.spec.domains[i], kind).name)
               <==> k == IngressKey(app, app.spec.domains[i]))
  {
    var d := app.spec.domains[i];
    assert d in app.spec.domains;
    UsedExactly(app, disc, now, s, d, kind, i);
    if k.kind == Ingress && k.ns == app.ns && Managed(app, Get(RunAll(app, Program(app, disc, now), s).objs, k)) {
      var j := ManagedIngress(app, disc, now, s, k);
      assert app.spec.domains[j] in app.spec.domains;
      UsedExactly(app, disc, now, s, d, kind, j);
      assert i != j ==> IngressKey(app, app.spec.domains[j]) != IngressKey(app, d);
    }
  }
}
