/**
 The loops that build parts of the desired objects, each proved against its specification in
 module Desired.
 */
module Rendering {
  import opened Names
  import opened Chain
  import opened Spec
  import opened Cluster
  import opened Desired

  // ----- Ports -----

  lemma {:induction false} ExposedAppend(a: seq<PortSpec>, b: seq<PortSpec>)
    ensures Exposed(a + b) == Exposed(a) + Exposed(b)
  {
    if b == [] {
      assert a + b == a;
    } else {
      assert (a + b)[..|a + b| - 1] == a + b[..|b| - 1];
      ExposedAppend(a, b[..|b| - 1]);
    }
  }

  lemma {:induction false} AllPortsSnoc(cs: seq<ContainerSpec>, i: nat)
    requires i < |cs|
    ensures AllPorts(cs[..i + 1]) == AllPorts(cs[..i]) + cs[i].ports
  {
    assert cs[..i + 1][..i] == cs[..i];
  }

  lemma {:induction false} ExposedSnoc(xs: seq<PortSpec>, p: PortSpec)
    ensures Exposed(xs + [p])
            == Exposed(xs) + if p.expose then [ServicePort(p.name, p.servicePort, p.containerPort, Protocol(p))] else []
  {
    assert (xs + [p])[..|xs|] == xs;
  }

  /** The exposed ones among a container's ports. */
  method AppendExposed(ports: seq<PortSpec>, own: seq<PortSpec>) returns (r: seq<PortSpec>)
    requires |ports| == |Exposed(ports)| && forall p :: p in ports ==> p.expose
    ensures Exposed(r) == Exposed(ports) + Exposed(own)
    ensures |r| == |Exposed(r)| && forall p :: p in r ==> p.expose
  {
    r := ports;
    for j := 0 to |own|
      invariant Exposed(r) == Exposed(ports) + Exposed(own[..j])
      invariant |r| == |Exposed(r)| && forall p :: p in r ==> p.expose
    {
      assert own[..j + 1] == own[..j] + [own[j]];
      ExposedSnoc(own[..j], own[j]);
      if own[j].expose {
        ExposedSnoc(r, own[j]);
        r := r + [own[j]];
      }
    }
    assert own[..|own|] == own;
  }

  /** exposedPorts. */
  method ExposedPorts(app: App) returns (ports: seq<PortSpec>)
    ensures Exposed(ports) == ServicePorts(app)
    ensures |ports| == |ServicePorts(app)| && forall p :: p in ports ==> p.expose
  {
    var cs := app.spec.containers;
    ports := [];
    for i := 0 to |cs|
      invariant Exposed(ports) == Exposed(AllPorts(cs[..i])) && |ports| == |Exposed(ports)|
      invariant forall p :: p in ports ==> p.expose
    {
      AllPortsSnoc(cs, i);
      ExposedAppend(AllPorts(cs[..i]), cs[i].ports);
      ports := AppendExposed(ports, cs[i].ports);
    }
    assert cs[..|cs|] == cs;
  }

  /** The port list of the Service. */
  method BuildServicePorts(ports: seq<PortSpec>) returns (r: seq<ServicePort>)
    requires forall p :: p in ports ==> p.expose
    ensures r == Exposed(ports)
  {
    r := [];
    for i := 0 to |ports|
      invariant r == Exposed(ports[..i])
    {
      assert ports[..i + 1][..i] == ports[..i];
      assert ports[i] in ports;
      var protocol := ports[i].protocol;
      if protocol == "" {
        protocol := "TCP";
      }
      r := r + [ServicePort(ports[i].name, ports[i].servicePort, ports[i].containerPort, protocol)];
    }
    assert ports[..|ports|] == ports;
  }

  // ----- ServiceMonitor -----

  predicate HasScrape(endpoints: seq<Scrape>, port: string) {
    exists i :: 0 <= i < |endpoints| && endpoints[i].port == port
  }

  lemma {:induction false} HasScrapeSnoc(endpoints: seq<Scrape>, e: Scrape, port: string)
    ensures HasScrape(endpoints + [e], port) <==> HasScrape(endpoints, port) || e.port == port
  {
    var r := endpoints + [e];
    assert r[|endpoints|] == e;
    assert forall i :: 0 <= i < |endpoints| ==> r[i] == endpoints[i];
  }

  /** The set holds exactly the port names that have an endpoint. */
  ghost predicate Seen(seen: set<string>, endpoints: seq<Scrape>) {
    forall n :: n in seen <==> HasScrape(endpoints, n)
  }

  lemma {:induction false} SeenSnoc(seen: set<string>, endpoints: seq<Scrape>, e: Scrape)
    requires Seen(seen, endpoints)
    ensures Seen(seen + {e.port}, endpoints + [e])
  {
    forall n
      ensures n in seen + {e.port} <==> HasScrape(endpoints + [e], n)
    {
      HasScrapeSnoc(endpoints, e, n);
    }
  }

  lemma {:induction false} ScrapesSnoc(ports: seq<PortSpec>, p: PortSpec)
    ensures Scrapes(ports + [p])
            == Scrapes(ports) + if Scraped(p) && !HasScrape(Scrapes(ports), p.name) then [ScrapeOf(p)] else []
  {
    assert (ports + [p])[..|ports|] == ports;
  }

  /** The inner loop of buildSMEndpoints. */
  method AppendEndpoints(endpoints: seq<Scrape>, seen: set<string>, own: seq<PortSpec>, ghost before: seq<PortSpec>)
    returns (r: seq<Scrape>, seen': set<string>)
    requires endpoints == Scrapes(before)
    requires Seen(seen, endpoints)
    ensures r == Scrapes(before + own)
    ensures Seen(seen', r)
  {
    r, seen' := endpoints, seen;
    assert before + own[..0] == before;
    for j := 0 to |own|
      invariant r == Scrapes(before + own[..j])
      invariant Seen(seen', r)
    {
      assert before + own[..j + 1] == (before + own[..j]) + [own[j]];
      ScrapesSnoc(before + own[..j], own[j]);
      var p := own[j];
      if p.metrics.None? || !p.metrics.value.enabled || p.name in seen' {
        continue;
      }
      var path := p.metrics.value.path;
      if path == "" {
        path := "/metrics";
      }
      var e := Scrape(p.name, path, p.metrics.value.interval);
      SeenSnoc(seen', r, e);
      seen' := seen' + {p.name};
      r := r + [e];
    }
    assert own[..|own|] == own;
  }

  /** buildSMEndpoints. */
  method BuildEndpoints(app: App) returns (endpoints: seq<Scrape>)
    ensures endpoints == Scrapes(AllPorts(app.spec.containers))
  {
    var cs := app.spec.containers;
    var seen: set<string> := {};
    endpoints := [];
    for i := 0 to |cs|
      invariant endpoints == Scrapes(AllPorts(cs[..i]))
      invariant Seen(seen, endpoints)
    {
      AllPortsSnoc(cs, i);
      endpoints, seen := AppendEndpoints(endpoints, seen, cs[i].ports, AllPorts(cs[..i]));
    }
    assert cs[..|cs|] == cs;
  }

  lemma {:induction false} ScrapeLabelsSnoc(base: map<string, string>, ports: seq<PortSpec>, p: PortSpec)
    ensures ScrapeLabels(base, ports + [p]) == if Scraped(p) then ScrapeLabels(base, ports) + p.metrics.value.labels
                                               else ScrapeLabels(base, ports)
  {
    assert (ports + [p])[..|ports|] == ports;
  }

  /** The inner loop of buildSMLabels. */
  method AppendLabels(labels: map<string, string>, own: seq<PortSpec>, ghost base: map<string, string>,
                      ghost before: seq<PortSpec>)
    returns (r: map<string, string>)
    requires labels == ScrapeLabels(base, before)
    ensures r == ScrapeLabels(base, before + own)
  {
    r := labels;
    assert before + own[..0] == before;
    for j := 0 to |own|
      invariant r == ScrapeLabels(base, before + own[..j])
    {
      assert before + own[..j + 1] == (before + own[..j]) + [own[j]];
      ScrapeLabelsSnoc(base, before + own[..j], own[j]);
      if own[j].metrics.None? || !own[j].metrics.value.enabled {
        continue;
      }
      r := r + own[j].metrics.value.labels;
    }
    assert own[..|own|] == own;
  }

  /** buildSMLabels over the standard labels. */
  method BuildMonitorLabels(app: App, standard: map<string, string>) returns (labels: map<string, string>)
    ensures labels == ScrapeLabels(standard, AllPorts(app.spec.containers))
  {
    var cs := app.spec.containers;
    labels := standard;
    for i := 0 to |cs|
      invariant labels == ScrapeLabels(standard, AllPorts(cs[..i]))
    {
      AllPortsSnoc(cs, i);
      labels := AppendLabels(labels, cs[i].ports, standard, AllPorts(cs[..i]));
    }
    assert cs[..|cs|] == cs;
  }

  /** The endpoint comes from the first scraped port of its name. */
  ghost predicate FirstScrape(ports: seq<PortSpec>, e: Scrape) {
    exists m: nat :: m < |ports| && Scraped(ports[m]) && e == ScrapeOf(ports[m]) && NoneBefore(ports, m, e.port)
  }

  predicate NoneBefore(ports: seq<PortSpec>, m: nat, name: string)
    requires m <= |ports|
  {
    forall j :: 0 <= j < m && Scraped(ports[j]) ==> ports[j].name != name
  }

  lemma {:induction false} FirstScrapeSnoc(ports: seq<PortSpec>, p: PortSpec, e: Scrape)
    requires FirstScrape(ports, e) || (Scraped(p) && e == ScrapeOf(p) && NoneBefore(ports, |ports|, e.port))
    ensures FirstScrape(ports + [p], e)
  {
    var all := ports + [p];
    if FirstScrape(ports, e) {
      var m: nat :| m < |ports| && Scraped(ports[m]) && e == ScrapeOf(ports[m]) && NoneBefore(ports, m, e.port);
      assert Scraped(all[m]) && NoneBefore(all, m, e.port);
    } else {
      assert Scraped(all[|ports|]) && NoneBefore(all, |ports|, e.port);
    }
  }

  /** One endpoint for each scraped port name, from the first port of that name. */
  lemma {:induction false} ScrapesShape(ports: seq<PortSpec>)
    ensures forall i, j :: 0 <= i < j < |Scrapes(ports)| ==> Scrapes(ports)[i].port != Scrapes(ports)[j].port
    ensures forall p :: p in ports && Scraped(p) ==> HasScrape(Scrapes(ports), p.name)
    ensures forall e :: e in Scrapes(ports) ==> FirstScrape(ports, e)
  {
    if ports != [] {
      var init, p := ports[..|ports| - 1], ports[|ports| - 1];
      ScrapesShape(init);
      assert ports == init + [p];
      ScrapesSnoc(init, p);
      var r := Scrapes(init);
      forall q | q in ports && Scraped(q)
        ensures HasScrape(Scrapes(ports), q.name)
      {
        HasScrapeSnoc(r, ScrapeOf(q), q.name);
        if Scraped(p) {
          HasScrapeSnoc(r, ScrapeOf(p), q.name);
        }
      }
      forall e | e in Scrapes(ports)
        ensures FirstScrape(ports, e)
      {
        if e !in r {
          LastIsFirst(init, p);
        }
        FirstScrapeSnoc(init, p, e);
      }
    }
  }

  lemma {:induction false} LastIsFirst(init: seq<PortSpec>, p: PortSpec)
    requires Scraped(p) && !HasScrape(Scrapes(init), p.name)
    requires forall q :: q in init && Scraped(q) ==> HasScrape(Scrapes(init), q.name)
    ensures NoneBefore(init, |init|, p.name)
  {
    forall j | 0 <= j < |init| && Scraped(init[j])
      ensures init[j].name != p.name
    {
      assert init[j] in init;
    }
  }

  // ----- Ingress annotations -----

  method BuildNativeRefs(app: App, d: DomainSpec, kinds: seq<MiddlewareKind>) returns (native: seq<string>)
    ensures native == NativeRefs(app.ns, app.name, d, kinds)
  {
    native := [];
    for i := 0 to |kinds|
      invariant native == NativeRefs(app.ns, app.name, d, kinds)[..i]
    {
      native := native + [app.ns + "-" + MiddlewareName(app.name, d.name, d.path, kinds[i]) + "@kubernetescrd"];
    }
  }

  /** The annotation map that reconcileIngress assembles for one domain. */
  method BuildAnnotations(app: App, d: DomainSpec) returns (annotations: map<string, string>)
    ensures annotations == IngressAnnotationsFor(app, d)
  {
    annotations := app.spec.ingressAnnotations + d.annotations;
    if d.tls && d.certIssuer != "" {
      annotations := annotations[ISSUER_KEY := d.certIssuer];
    }
    var kinds := EnabledMiddlewareKinds(d);
    if kinds == [] {
      return;
    }
    var native := BuildNativeRefs(app, d, kinds);
    var raw := if CHAIN_KEY in annotations then annotations[CHAIN_KEY] else "";
    assert raw == ExplicitRaw(app, d);
    var refs := MergeChain(raw, native);
    annotations := annotations[CHAIN_KEY := JoinComma(refs)];
  }
}
