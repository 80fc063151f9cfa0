/**
 What the second hash of the pod template knows of the Secrets that ESO has synced: externalSecretHash in
 internal/controller/reconcile_deployment.go.
 */
module SyncedHash {
  import opened Common
  import opened Spec
  import opened ConfigHash
  import opened Cluster
  import opened Desired
  import opened Fixpoint

  /** The data of a synced Secret, None while it is absent. */
  function SyncedData(app: App, s: Objs, name: string): Option<map<string, string>> {
    if SyncedKey(app, name) in s then Some(DataOf(s[SyncedKey(app, name)])) else None
  }

  /** Names and keys hold no '=' or newline, and no line of a synced value after its first is a header line or begins
      with a key and '=', among the headers and keys w that come into question. */
  predicate ReadableSynced(app: App, s: Objs, names: seq<Item<string>>, w: Words) {
    PlainWords(w) &&
    forall x :: x in names ==>
      CleanKey(x.key) && "es:" + x.key in w.heads &&
      (SyncedData(app, s, x.key).Some? ==> CleanData(SyncedData(app, s, x.key).value, w))
  }

  /** The header lines and keys of the synced Secrets of a spec. */
  ghost function SyncedWords(app: App, s: Objs): Words {
    Words(set x | x in SyncedNames(app) :: "es:" + x.key,
          set x, k | x in SyncedNames(app) && k in PresentData(app, s, x.key) :: k)
  }

  function PresentData(app: App, s: Objs, name: string): map<string, string> {
    if SyncedData(app, s, name).Some? then SyncedData(app, s, name).value else map[]
  }

  /** The data synced in two stores can be told apart. */
  ghost predicate BothReadable(app: App, s: Objs, t: Objs) {
    var w := Union(SyncedWords(app, s), SyncedWords(app, t));
    ReadableSynced(app, s, SyncedNames(app), w) && ReadableSynced(app, t, SyncedNames(app), w)
  }

  ghost function SectionOf(name: string, data: map<string, string>): Section {
    Section("es:" + name, Listed(data))
  }

  lemma {:induction false} SectionInjective(n: string, d: map<string, string>, m: string, e: map<string, string>)
    ensures SectionOf(n, d) == SectionOf(m, e) <==> n == m && d == e
  {
    assert ("es:" + n)[|"es:"|..] == n && ("es:" + m)[|"es:"|..] == m;
    ListedSpells(d);
    ListedSpells(e);
  }

  /** The sections of the stream are those of the Secrets that are there. */
  lemma {:induction false} SectionPresent(app: App, s: Objs, names: seq<Item<string>>, n: string,
                                          d: map<string, string>)
    ensures SectionOf(n, d) in SyncedSections(app, s, names)
            <==> (exists x :: x in names && x.key == n) && SyncedData(app, s, n) == Some(d)
  {
    if names != [] {
      var init, last := names[..|names| - 1], names[|names| - 1];
      SectionPresent(app, s, init, n, d);
      assert names == init + [last];
      assert (exists x :: x in names && x.key == n) <==> (exists x :: x in init && x.key == n) || last.key == n;
      if SyncedKey(app, last.key) in s {
        SectionInjective(n, d, last.key, DataOf(s[SyncedKey(app, last.key)]));
      }
    }
  }

  lemma {:induction false} SectionsClean(app: App, s: Objs, names: seq<Item<string>>, w: Words)
    requires ReadableSynced(app, s, names, w)
    ensures forall x :: x in SyncedSections(app, s, names) ==> CleanSection(x, w)
  {
    if names != [] {
      var last := names[|names| - 1];
      assert last in names;
      SectionsClean(app, s, names[..|names| - 1], w);
      if SyncedData(app, s, last.key).Some? {
        EntrySection("es:", last.key, SyncedData(app, s, last.key).value, w);
      }
    }
  }

  lemma {:induction false} SameDataSameSections(app: App, s: Objs, t: Objs, names: seq<Item<string>>)
    requires forall x :: x in names ==> SyncedData(app, s, x.key) == SyncedData(app, t, x.key)
    ensures SyncedSections(app, s, names) == SyncedSections(app, t, names)
  {
    if names != [] {
      assert names[|names| - 1] in names;
      SameDataSameSections(app, s, t, names[..|names| - 1]);
    }
  }

  lemma {:induction false} SameSectionsSameData(app: App, s: Objs, t: Objs, names: seq<Item<string>>, n: string)
    requires SyncedSections(app, s, names) == SyncedSections(app, t, names)
    requires exists x :: x in names && x.key == n
    ensures SyncedData(app, s, n) == SyncedData(app, t, n)
  {
    if SyncedData(app, s, n).Some? {
      SectionPresent(app, s, names, n, SyncedData(app, s, n).value);
      SectionPresent(app, t, names, n, SyncedData(app, s, n).value);
    }
    if SyncedData(app, t, n).Some? {
      SectionPresent(app, s, names, n, SyncedData(app, t, n).value);
      SectionPresent(app, t, names, n, SyncedData(app, t, n).value);
    }
  }

  lemma {:induction false} SameStreamSameSections(app: App, s: Objs, t: Objs, w: Words)
    requires ReadableSynced(app, s, Sort(SyncedNames(app)), w) && ReadableSynced(app, t, Sort(SyncedNames(app)), w)
    requires Synced(app, s) == Synced(app, t)
    ensures SyncedSections(app, s, Sort(SyncedNames(app))) == SyncedSections(app, t, Sort(SyncedNames(app)))
  {
    var names := Sort(SyncedNames(app));
    SectionsClean(app, s, names, w);
    SectionsClean(app, t, names, w);
    SectionsRecovered(SyncedSections(app, s, names), w);
    SectionsRecovered(SyncedSections(app, t, names), w);
  }

  /** Between any two moments the hash input of external secrets changes exactly when the data of some synced
      Secret of the spec does, or one comes or goes: readable data changes never go unnoticed, and nothing else
      restarts the pods. */
  lemma {:induction false} SyncedTracksData(app: App, s: Objs, t: Objs)
    requires BothReadable(app, s, t)
    ensures Synced(app, s) == Synced(app, t) <==>
              forall es :: es in app.spec.externalSecrets ==> SyncedData(app, s, es.name) == SyncedData(app, t, es.name)
  {
    var names, w := Sort(SyncedNames(app)), Union(SyncedWords(app, s), SyncedWords(app, t));
    SortElements(SyncedNames(app));
    assert ReadableSynced(app, s, names, w) && ReadableSynced(app, t, names, w);
    if Synced(app, s) == Synced(app, t) {
      SameStreamSameSections(app, s, t, w);
      forall es | es in app.spec.externalSecrets
        ensures SyncedData(app, s, es.name) == SyncedData(app, t, es.name)
      {
        NameListed(app, es);
        SameSectionsSameData(app, s, t, names, es.name);
      }
    }
    if forall es :: es in app.spec.externalSecrets ==> SyncedData(app, s, es.name) == SyncedData(app, t, es.name) {
      forall x | x in names
        ensures SyncedData(app, s, x.key) == SyncedData(app, t, x.key)
      {
        var i: nat :| i < |SyncedNames(app)| && SyncedNames(app)[i] == x;
        assert app.spec.externalSecrets[i] in app.spec.externalSecrets;
      }
      SameDataSameSections(app, s, t, names);
    }
  }

  lemma {:induction false} NameListed(app: App, es: ExternalSecretMount)
    requires es in app.spec.externalSecrets
    ensures exists x :: x in Sort(SyncedNames(app)) && x.key == es.name
  {
    SortElements(SyncedNames(app));
    var i: nat :| i < |app.spec.externalSecrets| && app.spec.externalSecrets[i] == es;
    assert SyncedNames(app)[i] in SyncedNames(app);
    assert SyncedNames(app)[i] in Sort(SyncedNames(app));
  }

  lemma {:induction false} TemplateOf(app: App, cur: Slot, want: Obj, x: Option<string>, y: Option<string>, cur': Slot)
    requires want.body.Workload?
    ensures Merge(app, Deployment, cur, Resolve(want, x)).body.Workload?
    ensures Merge(app, Deployment, cur', Resolve(want, y)).body.Workload?
    ensures Merge(app, Deployment, cur, Resolve(want, x)).body.template ==
              Merge(app, Deployment, cur', Resolve(want, y)).body.template
            <==> x == y
  {
  }

  /** A rotation restarts the pods, exactly: two successful reconciles of one spec, from any stores, leave the same
      pod template if and only if they end with the same synced data. */
  lemma {:induction false} RotationRestartsExactly(app: App, disc: Discovery, before: int, s: Objs, disc': Discovery,
                                                   now: int, s': Objs)
    requires !app.spec.paused
    requires RunAll(app, Program(app, disc, before), s).ok && RunAll(app, Program(app, disc', now), s').ok
    requires BothReadable(app, RunAll(app, Program(app, disc, before), s).objs,
                          RunAll(app, Program(app, disc', now), s').objs)
    ensures var t, u := RunAll(app, Program(app, disc, before), s).objs, RunAll(app, Program(app, disc', now), s').objs;
            var k := Key(Deployment, app.ns, app.name);
            k in t && k in u && t[k].body.Workload? && u[k].body.Workload? &&
            (t[k].body.template == u[k].body.template <==>
              forall es :: es in app.spec.externalSecrets ==>
                       SyncedData(app, t, es.name) == SyncedData(app, u, es.name))
  {
    var t, u := RunAll(app, Program(app, disc, before), s).objs, RunAll(app, Program(app, disc', now), s').objs;
    var k := Key(Deployment, app.ns, app.name);
    FinalDeployment(app, disc, before, s);
    FinalDeployment(app, disc', now, s');
    TemplateOf(app, Get(s, k), DeployOp(app).want, Synced(app, t), Synced(app, u), Get(s', k));
    SyncedTracksData(app, t, u);
  }
}
