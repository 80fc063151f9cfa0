/**
 The Middlewares, Ingresses and ServiceMonitor of a successful reconcile, written out on the fields of the spec:
 internal/controller/reconcile_middleware.go, reconcile_ingress.go and reconcile_servicemonitor.go.
 */
module RenderedRoutes {
  import opened Common
  import opened Names
  import opened Chain
  import opened Spec
  import opened Cluster
  import opened Desired
  import opened Convergence
  import opened Delivery
  import opened Rendering
  import opened Rendered

  // ----- Which Middlewares a domain wants, and their names -----

  /** Which kinds a domain wants, field by field. */
  lemma {:induction false} KindsListed(d: DomainSpec)
    ensures var mw, kinds := d.middlewares, EnabledKinds(d);
            (RedirectScheme in kinds <==> (mw.Some? && mw.value.redirectScheme.Some?) || (d.tls && d.redirectTls)) &&
            (IpAllow in kinds <==> mw.Some? && mw.value.ipWhiteList.Some?) &&
            (RateLimit in kinds <==> mw.Some? && mw.value.rateLimit.Some?) &&
            (ForwardAuth in kinds <==> mw.Some? && mw.value.forwardAuth.Some?) &&
            (BasicAuth in kinds <==> mw.Some? && mw.value.basicAuth.Some?) &&
            (Headers in kinds <==> mw.Some? && mw.value.headers.Some?) &&
            (Compress in kinds <==> mw.Some? && mw.value.compress.Some?) &&
            (Rewrite in kinds <==> mw.Some? && mw.value.rewrite.Some?)
  {
    EnabledKindsInChainOrder(d);
  }

  /** Where a kind stands in the chain. */
  predicate StandsAt(k: MiddlewareKind, a: int) {
    0 <= a < 8 && [RedirectScheme, IpAllow, RateLimit, ForwardAuth, BasicAuth, Headers, Compress, Rewrite][a] == k
  }

  /** And in which order: the redirect first, then the filters, the two authentications, headers, compression, and
      the rewrite last. */
  lemma {:induction false} KindsOrdered(d: DomainSpec, i: nat, j: nat)
    requires i < j < |EnabledKinds(d)|
    ensures exists a, b :: StandsAt(EnabledKinds(d)[i], a) && StandsAt(EnabledKinds(d)[j], b) && a < b
  {
    EnabledKindsInChainOrder(d);
    assert StandsAt(EnabledKinds(d)[i], Rank(EnabledKinds(d)[i]));
    assert StandsAt(EnabledKinds(d)[j], Rank(EnabledKinds(d)[j]));
  }

  /** The name of an Ingress, spelled out. */
  lemma {:induction false} IngressNameSpelled(app: string, host: string, path: string)
    ensures DomainIngressName(app, host, path) ==
              if Sanitized(path) == "" then app + "-" + Sanitized(host)
              else app + "-" + Sanitized(host) + "-" + Sanitized(path)
  {
  }

  /** The names of the Middlewares: that of the Ingress, a dash and the word for the kind. */
  lemma {:induction false} MiddlewareNamesSpelled(app: string, host: string, path: string)
    ensures var name := DomainIngressName(app, host, path);
            MiddlewareName(app, host, path, RedirectScheme) == name + "-" + "redirectscheme" &&
            MiddlewareName(app, host, path, IpAllow) == name + "-" + "ipallow" &&
            MiddlewareName(app, host, path, RateLimit) == name + "-" + "ratelimit" &&
            MiddlewareName(app, host, path, ForwardAuth) == name + "-" + "forwardauth" &&
            MiddlewareName(app, host, path, BasicAuth) == name + "-" + "basicauth" &&
            MiddlewareName(app, host, path, Headers) == name + "-" + "headers" &&
            MiddlewareName(app, host, path, Compress) == name + "-" + "compress" &&
            MiddlewareName(app, host, path, Rewrite) == name + "-" + "rewrite"
  {
  }

  // ----- Middlewares -----

  lemma {:induction false} HopKeysDiffer(app: App, d: DomainSpec, kind: MiddlewareKind, e: DomainSpec,
                                         l: MiddlewareKind)
    ensures HopKey(app, d, kind) == HopKey(app, e, l) <==> kind == l && IngressKey(app, d) == IngressKey(app, e)
  {
    MiddlewareNamesAgree(app.name, d.name, d.path, kind, app.name, e.name, e.path, l);
  }

  lemma {:induction false} NoHopWrite(app: App, legacy: bool, ds: seq<DomainSpec>, d: DomainSpec, kind: MiddlewareKind)
    requires forall e :: e in ds ==> IngressKey(app, e) != IngressKey(app, d)
    ensures forall o :: o in MiddlewareWrites(app, legacy, ds) ==> o.key != HopKey(app, d, kind)
  {
    MiddlewaresWritten(app, legacy, ds);
    forall o | o in MiddlewareWrites(app, legacy, ds)
      ensures o.key != HopKey(app, d, kind)
    {
      var e, l :| e in ds && l in EnabledKinds(e) && o == HopWrite(app, legacy, e, l);
      HopKeysDiffer(app, d, kind, e, l);
    }
  }

  lemma {:induction false} MiddlewareWritesAppend(app: App, legacy: bool, a: seq<DomainSpec>, b: seq<DomainSpec>)
    ensures MiddlewareWrites(app, legacy, a + b) == MiddlewareWrites(app, legacy, a) + MiddlewareWrites(app, legacy, b)
  {
    if a == [] {
      assert a + b == b;
    } else {
      assert (a + b)[1..] == a[1..] + b;
      MiddlewareWritesAppend(app, legacy, a[1..], b);
    }
  }

  lemma {:induction false} OthersDiffer(app: App, legacy: bool, d: DomainSpec, kinds: seq<MiddlewareKind>,
                                        kind: MiddlewareKind)
    requires kind !in kinds
    ensures forall o :: o in HopWrites(app, legacy, d, kinds) ==> o.key != HopKey(app, d, kind)
  {
    HopsWritten(app, legacy, d, kinds);
    forall o | o in HopWrites(app, legacy, d, kinds)
      ensures o.key != HopKey(app, d, kind)
    {
      var l :| l in kinds && o == HopWrite(app, legacy, d, l);
      HopKeysDiffer(app, d, kind, d, l);
    }
  }

  lemma {:induction false} HopsSplit(app: App, legacy: bool, d: DomainSpec, kinds: seq<MiddlewareKind>, x: nat)
    requires x < |kinds|
    ensures HopWrites(app, legacy, d, kinds) ==
              HopWrites(app, legacy, d, kinds[..x]) + [HopWrite(app, legacy, d, kinds[x])] +
              HopWrites(app, legacy, d, kinds[x + 1..])
  {
  }

  /** Within one domain each kind is written once. */
  lemma {:induction false} HopsAround(app: App, legacy: bool, d: DomainSpec, kind: MiddlewareKind)
    returns (before: seq<Op>, after: seq<Op>)
    requires Wants(d, kind)
    ensures HopWrites(app, legacy, d, EnabledKinds(d)) == before + [HopWrite(app, legacy, d, kind)] + after
    ensures forall o :: o in after ==> o.Replace? && o.key != HopKey(app, d, kind)
  {
    var kinds := EnabledKinds(d);
    EnabledKindsInChainOrder(d);
    var x: nat :| x < |kinds| && kinds[x] == kind;
    HopsSplit(app, legacy, d, kinds, x);
    before, after := HopWrites(app, legacy, d, kinds[..x]), HopWrites(app, legacy, d, kinds[x + 1..]);
    OthersDiffer(app, legacy, d, kinds[x + 1..], kind);
  }

  lemma {:induction false} Regroup4(a: seq<Op>, b: seq<Op>, x: seq<Op>, c: seq<Op>, e: seq<Op>)
    ensures a + ((b + x + c) + e) == (a + b) + x + (c + e)
  {
  }

  lemma {:induction false} NotLater(app: App, i: nat)
    requires i < |app.spec.domains| && LastOfName(app, i)
    ensures forall e :: e in app.spec.domains[i + 1..] ==> IngressKey(app, e) != IngressKey(app, app.spec.domains[i])
  {
    var ds := app.spec.domains;
    forall e | e in ds[i + 1..]
      ensures IngressKey(app, e) != IngressKey(app, ds[i])
    {
      var j: nat :| j < |ds[i + 1..]| && ds[i + 1..][j] == e;
      assert ds[i + 1 + j] == e;
    }
  }

  /** The write for a kind of the last domain of an Ingress name is the last one on that Middleware. */
  lemma {:induction false} HopLast(app: App, legacy: bool, i: nat, kind: MiddlewareKind)
    requires i < |app.spec.domains| && LastOfName(app, i) && Wants(app.spec.domains[i], kind)
    ensures LastOn(MiddlewareWrites(app, legacy, app.spec.domains), HopKey(app, app.spec.domains[i], kind))
            == Some(HopWrite(app, legacy, app.spec.domains[i], kind))
  {
    var ds := app.spec.domains;
    var d, rest := ds[i], ds[i + 1..];
    var k, op := HopKey(app, d, kind), HopWrite(app, legacy, d, kind);
    var b, c := HopsAround(app, legacy, d, kind);
    var a, e := MiddlewareWrites(app, legacy, ds[..i]), MiddlewareWrites(app, legacy, rest);
    Around(ds, i);
    MiddlewareWritesAppend(app, legacy, ds[..i], [d] + rest);
    assert ([d] + rest)[1..] == rest;
    NotLater(app, i);
    NoHopWrite(app, legacy, rest, d, kind);
    Regroup4(a, b, [op], c, e);
    LastOnMiddle(a + b, op, c + e, k);
  }

  lemma {:induction false} HopLeft(app: App, disc: Discovery, now: int, s: Objs, i: nat, kind: MiddlewareKind, k: Key)
    requires !app.spec.paused && disc.middlewares.Some? && RunAll(app, Program(app, disc, now), s).ok
    requires i < |app.spec.domains| && LastOfName(app, i) && Wants(app.spec.domains[i], kind)
    requires k == HopKey(app, app.spec.domains[i], kind)
    ensures Get(RunAll(app, Program(app, disc, now), s).objs, k) ==
              Some(Overwrite(Get(s, k), HopWrite(app, disc.middlewares.value, app.spec.domains[i], kind).want))
  {
    HopLast(app, disc.middlewares.value, i, kind);
    LastDecides(app, disc, now, s, k, HopWrite(app, disc.middlewares.value, app.spec.domains[i], kind));
  }

  /** The body of each Middleware is the one configured under its own field; the HTTPS redirect alone has a body
      when its field is absent. */
  lemma {:induction false} MiddlewareRendered(app: App, disc: Discovery, now: int, s: Objs, i: nat,
                                              kind: MiddlewareKind, k: Key)
    requires !app.spec.paused && disc.middlewares.Some? && RunAll(app, Program(app, disc, now), s).ok
    requires i < |app.spec.domains| && LastOfName(app, i) && kind in EnabledKinds(app.spec.domains[i])
    requires k == Key(Middleware, app.ns,
                      MiddlewareName(app.name, app.spec.domains[i].name, app.spec.domains[i].path, kind))
    ensures var t, mw := RunAll(app, Program(app, disc, now), s).objs, app.spec.domains[i].middlewares;
            k in t && Belongs(app, t[k]) && t[k].annotations == map[] && t[k].body.Hop? &&
            t[k].body.hop == kind && t[k].body.legacy == disc.middlewares.value &&
            (kind == RedirectScheme ==>
               t[k].body.config == (if mw.Some? && mw.value.redirectScheme.Some? then mw.value.redirectScheme.value
                                    else "scheme: https, permanent: true")) &&
            (kind == IpAllow ==> mw.Some? && mw.value.ipWhiteList == Some(t[k].body.config)) &&
            (kind == RateLimit ==> mw.Some? && mw.value.rateLimit == Some(t[k].body.config)) &&
            (kind == ForwardAuth ==> mw.Some? && mw.value.forwardAuth == Some(t[k].body.config)) &&
            (kind == BasicAuth ==> mw.Some? && mw.value.basicAuth == Some(t[k].body.config)) &&
            (kind == Headers ==> mw.Some? && mw.value.headers == Some(t[k].body.config)) &&
            (kind == Compress ==> mw.Some? && mw.value.compress == Some(t[k].body.config)) &&
            (kind == Rewrite ==> mw.Some? && mw.value.rewrite == Some(t[k].body.config))
  {
    EnabledKindsInChainOrder(app.spec.domains[i]);
    HopLeft(app, disc, now, s, i, kind, k);
  }

  // ----- Ingress annotations -----

  /** Key a of the merged annotations of a domain: the domain's own if it has one, else that of the spec. */
  predicate MergedAt(app: App, d: DomainSpec, a: string, annotations: map<string, string>) {
    if a in d.annotations then a in annotations && annotations[a] == d.annotations[a]
    else if a in app.spec.ingressAnnotations then a in annotations && annotations[a] == app.spec.ingressAnnotations[a]
    else a !in annotations
  }

  /** The references that the user wrote for a domain: its own annotation if it has one, else that of the spec. */
  function UserChain(app: App, d: DomainSpec): string {
    if "traefik.ingress.kubernetes.io/router.middlewares" in d.annotations
    then d.annotations["traefik.ingress.kubernetes.io/router.middlewares"]
    else if "traefik.ingress.kubernetes.io/router.middlewares" in app.spec.ingressAnnotations
    then app.spec.ingressAnnotations["traefik.ingress.kubernetes.io/router.middlewares"]
    else ""
  }

  lemma {:induction false} BaseMerged(app: App, d: DomainSpec, a: string)
    ensures a != "cert-manager.io/cluster-issuer" || !d.tls || d.certIssuer == "" ==>
              MergedAt(app, d, a, BaseAnnotations(app, d))
    ensures d.tls && d.certIssuer != "" ==>
              "cert-manager.io/cluster-issuer" in BaseAnnotations(app, d) &&
              BaseAnnotations(app, d)["cert-manager.io/cluster-issuer"] == d.certIssuer
    ensures ExplicitRaw(app, d) == UserChain(app, d)
  {
  }

  lemma {:induction false} AnnotationsMerged(app: App, d: DomainSpec, a: string)
    ensures var annotations := IngressAnnotationsFor(app, d);
            var chain, issuer := "traefik.ingress.kubernetes.io/router.middlewares", "cert-manager.io/cluster-issuer";
            (a != issuer && (a != chain || EnabledKinds(d) == []) ==> MergedAt(app, d, a, annotations)) &&
            (if d.tls && d.certIssuer != "" then issuer in annotations && annotations[issuer] == d.certIssuer
             else MergedAt(app, d, issuer, annotations)) &&
            (EnabledKinds(d) != [] ==>
               chain in annotations &&
               annotations[chain] == JoinComma(Dedupe(Explicit(UserChain(app, d)) +
                                                      NativeRefs(app.ns, app.name, d, EnabledKinds(d)))))
  {
    BaseMerged(app, d, a);
    BaseMerged(app, d, "cert-manager.io/cluster-issuer");
    assert |ISSUER_KEY| == 30 && |CHAIN_KEY| == 48;
  }

  lemma {:induction false} IngressLeft(app: App, disc: Discovery, now: int, s: Objs, i: nat, k: Key)
    requires !app.spec.paused && RunAll(app, Program(app, disc, now), s).ok
    requires i < |app.spec.domains| && LastOfName(app, i) && k == IngressKey(app, app.spec.domains[i])
    ensures Get(RunAll(app, Program(app, disc, now), s).objs, k) ==
              Some(Merge(app, Ingress, Get(s, k), IngressWant(app, app.spec.domains[i])))
  {
    IngressLast(app, i);
    LastDecides(app, disc, now, s, k, IngressWrite(app, app.spec.domains[i]));
  }

  /** The annotations of the Ingress of the last domain of its name. */
  lemma {:induction false} IngressAnnotationsRendered(app: App, disc: Discovery, now: int, s: Objs, i: nat, k: Key,
                                                      a: string)
    requires !app.spec.paused && RunAll(app, Program(app, disc, now), s).ok
    requires i < |app.spec.domains| && LastOfName(app, i)
    requires k == Key(Ingress, app.ns, DomainIngressName(app.name, app.spec.domains[i].name, app.spec.domains[i].path))
    ensures var t, d := RunAll(app, Program(app, disc, now), s).objs, app.spec.domains[i];
            var chain, issuer := "traefik.ingress.kubernetes.io/router.middlewares", "cert-manager.io/cluster-issuer";
            k in t &&
            (a != issuer && (a != chain || EnabledKinds(d) == []) ==> MergedAt(app, d, a, t[k].annotations)) &&
            (if d.tls && d.certIssuer != "" then issuer in t[k].annotations && t[k].annotations[issuer] == d.certIssuer
             else MergedAt(app, d, issuer, t[k].annotations)) &&
            (EnabledKinds(d) != [] ==>
               chain in t[k].annotations &&
               t[k].annotations[chain] == JoinComma(Dedupe(Explicit(UserChain(app, d)) +
                                                           NativeRefs(app.ns, app.name, d, EnabledKinds(d)))))
  {
    IngressLeft(app, disc, now, s, i, k);
    AnnotationsMerged(app, app.spec.domains[i], a);
  }

  /** A native reference, spelled out. */
  lemma {:induction false} NativeRefSpelled(app: App, d: DomainSpec, j: nat)
    requires j < |EnabledKinds(d)|
    ensures |NativeRefs(app.ns, app.name, d, EnabledKinds(d))| == |EnabledKinds(d)|
    ensures NativeRefs(app.ns, app.name, d, EnabledKinds(d))[j] ==
              app.ns + "-" + MiddlewareName(app.name, d.name, d.path, EnabledKinds(d)[j]) + "@kubernetescrd"
  {
  }

  /** The route of the Ingress of the last domain of its name. */
  lemma {:induction false} IngressRendered(app: App, disc: Discovery, now: int, s: Objs, i: nat, k: Key)
    requires !app.spec.paused && RunAll(app, Program(app, disc, now), s).ok
    requires i < |app.spec.domains| && LastOfName(app, i)
    requires k == Key(Ingress, app.ns, DomainIngressName(app.name, app.spec.domains[i].name, app.spec.domains[i].path))
    ensures var t, d := RunAll(app, Program(app, disc, now), s).objs, app.spec.domains[i];
            k in t && Belongs(app, t[k]) && t[k].rest == (if k in s then s[k].rest else "") && t[k].body.Route? &&
            t[k].body.ingressClass == (if app.spec.ingressClass != "" then Some(app.spec.ingressClass) else None) &&
            (d.tls <==> t[k].body.tls.Some?) &&
            (d.tls ==> t[k].body.tls.value.host == d.name &&
                       t[k].body.tls.value.secretName ==
                         (if d.secretName != "" then d.secretName else app.name + "-" + Sanitized(d.name) + "-tls")) &&
            t[k].body.host == d.name && t[k].body.pathPrefix == (if d.path != "" then d.path else "/") &&
            t[k].body.backend == app.name && t[k].body.portName == (if d.portName != "" then d.portName else "http")
  {
    IngressLeft(app, disc, now, s, i, k);
  }

  // ----- ServiceMonitor -----

  /** A port that asks to be scraped. */
  predicate AsksForScrape(p: PortSpec) {
    p.metrics.Some? && p.metrics.value.enabled
  }

  lemma {:induction false} MonitorFold(app: App, disc: Discovery, k: Key, cur: Slot)
    requires disc.serviceMonitors && k == MonitorKey(app) && Scrapes(AllPorts(app.spec.containers)) != []
    requires Fold(app, MonitorOps(app, disc), k, cur).Left?
    ensures var ports := AllPorts(app.spec.containers);
            Fold(app, MonitorOps(app, disc), k, cur) ==
              Left(Some(Overwrite(cur, Fresh(ScrapeLabels(StandardLabels(app.name), ports), Some(Me(app)),
                                             Monitor(app.name, Scrapes(ports), app.ns)))))
  {
    assert MonitorOps(app, disc)[1..] == [];
  }

  /** Label l of a ServiceMonitor: from the last scraped port that sets it, else one of the standard labels. */
  lemma {:induction false} ScrapeLabelAt(base: map<string, string>, ports: seq<PortSpec>, j: nat, l: string)
    requires j < |ports| && AsksForScrape(ports[j]) && l in ports[j].metrics.value.labels
    requires forall i :: j < i < |ports| && AsksForScrape(ports[i]) ==> l !in ports[i].metrics.value.labels
    ensures l in ScrapeLabels(base, ports) && ScrapeLabels(base, ports)[l] == ports[j].metrics.value.labels[l]
  {
    if j < |ports| - 1 {
      ScrapeLabelAt(base, ports[..|ports| - 1], j, l);
    }
  }

  lemma {:induction false} ScrapeLabelElse(base: map<string, string>, ports: seq<PortSpec>, l: string)
    requires forall p :: p in ports && AsksForScrape(p) ==> l !in p.metrics.value.labels
    ensures l in ScrapeLabels(base, ports) <==> l in base
    ensures l in base ==> ScrapeLabels(base, ports)[l] == base[l]
  {
    if ports != [] {
      assert ports[|ports| - 1] in ports;
      ScrapeLabelElse(base, ports[..|ports| - 1], l);
    }
  }

  /** The ServiceMonitor of an app with a scraped port: one endpoint for each scraped port name, with the settings of
      the first scraped port of the name. */
  lemma {:induction false} MonitorRendered(app: App, disc: Discovery, now: int, s: Objs, k: Key)
    requires !app.spec.paused && disc.serviceMonitors && RunAll(app, Program(app, disc, now), s).ok
    requires k == Key(ServiceMonitor, app.ns, app.name + "-monitor")
    ensures var t, ports := RunAll(app, Program(app, disc, now), s).objs, AllPorts(app.spec.containers);
            (k in t <==> exists p :: p in ports && AsksForScrape(p)) &&
            (k in t ==>
               t[k].owner == Some(Controller(app)) && t[k].annotations == map[] && t[k].body.Monitor? &&
               t[k].labels ==
                 ScrapeLabels(map["app.kubernetes.io/name" := app.name, "app.kubernetes.io/instance" := app.name,
                                  "app.kubernetes.io/managed-by" := "app-operator"], ports) &&
               t[k].body.matchName == app.name && t[k].body.matchNamespace == app.ns &&
               (forall p :: p in ports && AsksForScrape(p) ==> HasScrape(t[k].body.scrapes, p.name)) &&
               (forall e :: e in t[k].body.scrapes ==> exists j :: 0 <= j < |ports| && IsFirstScrape(ports, j, e)))
  {
    var ports := AllPorts(app.spec.containers);
    MonitorPresentExactly(app, disc, now, s);
    MonitorSlot(app, disc, now, s, k);
    ScrapesShape(ports);
    if Scrapes(ports) != [] {
      MonitorFold(app, disc, k, Get(s, k));
      forall e | e in Scrapes(ports)
        ensures exists j :: 0 <= j < |ports| && IsFirstScrape(ports, j, e)
      {
        FirstScrapeSpelled(ports, e);
      }
      assert Scrapes(ports)[0] in Scrapes(ports);
      FirstScrapeSpelled(ports, Scrapes(ports)[0]);
    }
  }

  lemma {:induction false} FirstScrapeSpelled(ports: seq<PortSpec>, e: Scrape)
    requires FirstScrape(ports, e)
    ensures exists j :: 0 <= j < |ports| && IsFirstScrape(ports, j, e)
  {
    var m: nat :| m < |ports| && Scraped(ports[m]) && e == ScrapeOf(ports[m]) && NoneBefore(ports, m, e.port);
    assert IsFirstScrape(ports, m, e);
  }

  /** Endpoint e is that of port j, the first scraped port of its name. */
  predicate IsFirstScrape(ports: seq<PortSpec>, j: int, e: Scrape)
    requires 0 <= j < |ports|
  {
    AsksForScrape(ports[j]) && e.port == ports[j].name &&
    e.path == (if ports[j].metrics.value.path != "" then ports[j].metrics.value.path else "/metrics") &&
    e.interval == ports[j].metrics.value.interval &&
    forall i :: 0 <= i < j && AsksForScrape(ports[i]) ==> ports[i].name != ports[j].name
  }
}
