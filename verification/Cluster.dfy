/**
 The cluster store and the operations a reconcile performs on it.

 A reconcile is a list of operations. Each has an effect on one object slot at a time, given by
 Touch; Exec runs one operation to completion, RunAll a whole list, and Step is one API call of a
 run that other parties may interleave with or that may stop after any call.

 Retried read-modify-writes are one step. The operator's annotation that nudges the External
 Secrets Operator (ESO) is kept apart from the other annotations, as the field nudge.
 */
module Cluster {
  import opened Common
  import opened Names
  import opened Spec
  import opened Pod
  import opened ConfigHash

  datatype Kind =
    | ConfigMap | Secret | ServiceAccount | SecretStore | ExternalSecret | Deployment
    | Service | Pvc | Middleware | Ingress | Hpa | ServiceMonitor

  datatype Key = Key(kind: Kind, ns: string, name: string)

  /** A controller owner reference. */
  datatype Owner = Owner(apiGroup: string, kind: string, name: string, uid: string)

  /** The nudge annotation: a time in whole seconds, or text that does not parse as one. */
  datatype Stamp = At(second: int) | Unreadable

  datatype ServicePort = ServicePort(name: string, port: int, targetPort: int, protocol: string)

  datatype Scrape = Scrape(port: string, path: string, interval: string)

  datatype Tls = Tls(host: string, secretName: string)

  datatype Template = Template(labels: map<string, string>, configStream: Option<string>,
                               externalStream: Option<string>,
                               volumes: seq<Volume>, initContainers: seq<Container>, containers: seq<Container>,
                               rest: string)

  datatype Body =
    | Data(data: map<string, string>)
    | Identity
    | Vault(server: string, path: string, version: string, mountPath: string, role: string, account: string)
    | External(refreshInterval: string, store: string, storeKind: string, target: string,
               targetLabels: map<string, string>, remote: seq<RemoteData>, extracts: seq<RemoteExtract>)
    | Workload(replicas: int, recreate: bool, selector: Option<map<string, string>>, template: Template)
    | Ports(serviceType: string, podSelector: map<string, string>, ports: seq<ServicePort>)
    | Claim(size: int, accessModes: seq<string>, storageClass: Option<string>)
    | Hop(hop: MiddlewareKind, legacy: bool, config: string)
    | Route(ingressClass: Option<string>, tls: Option<Tls>, host: string, pathPrefix: string, backend: string,
            portName: string)
    | Scaler(scaleTarget: string, limits: string)
    | Monitor(matchName: string, scrapes: seq<Scrape>, matchNamespace: string)

  /** ready is ESO's Ready condition, None before ESO wrote one; rest stands for every field that the
      operator never writes. */
  datatype Obj = Obj(labels: map<string, string>, owner: Option<Owner>, annotations: map<string, string>,
                     nudge: Option<Stamp>, body: Body, ready: Option<bool>, rest: string)

  type Slot = Option<Obj>
  type Objs = map<Key, Obj>

  function Get(s: Objs, k: Key): Slot {
    if k in s then Some(s[k]) else None
  }

  function Put1(s: Objs, k: Key, slot: Slot): Objs {
    match slot
    case None => s - {k}
    case Some(o) => s[k := o]
  }

  // ----- Ownership -----

  const GROUP := "appdefinition.abexamir.me"

  function Me(app: App): Owner {
    Owner(GROUP, "AppDefinition", app.name, app.uid)
  }

  function StandardLabels(name: string): map<string, string> {
    map["app.kubernetes.io/name" := name, "app.kubernetes.io/instance" := name,
        "app.kubernetes.io/managed-by" := "app-operator"]
  }

  function SelectorLabels(name: string): map<string, string> {
    map["app.kubernetes.io/name" := name]
  }

  predicate HasLabels(labels: map<string, string>, wanted: map<string, string>) {
    forall k :: k in wanted ==> k in labels && labels[k] == wanted[k]
  }

  /** SetControllerReference gives way only to itself: same group, kind and name. */
  predicate Blocked(app: App, cur: Slot) {
    cur.Some? && cur.value.owner.Some? &&
    !(cur.value.owner.value.apiGroup == GROUP && cur.value.owner.value.kind == "AppDefinition" &&
      cur.value.owner.value.name == app.name)
  }

  /** What the prune loops act on: the app's labels and IsControlledBy, which compares the uid. */
  predicate Managed(app: App, cur: Slot) {
    cur.Some? && HasLabels(cur.value.labels, StandardLabels(app.name)) &&
    cur.value.owner.Some? && cur.value.owner.value.uid == app.uid
  }

  // ----- Operations -----

  datatype Op =
    /** ctrl.CreateOrUpdate: create, or update the fields the operator owns. */
    | Apply(key: Key, want: Obj)
    /** Apply only an object that exists already. */
    | Guarded(key: Key, want: Obj)
    /** Create, or replace the object whole. */
    | Replace(key: Key, want: Obj)
    /** Create unless something by that name exists. */
    | Ensure(key: Key, want: Obj)
    /** Stamp a not-Ready ESO object. */
    | Nudge(key: Key, now: int)
    /** Delete by name. */
    | Drop(key: Key)
    /** List the managed objects of a kind and delete those not to be kept. */
    | Prune(kind: Kind, keep: set<string>)
    /** The deletions left of a listing. */
    | Sweep(kind: Kind, names: set<string>)

  function OpKind(op: Op): Kind {
    match op
    case Prune(kind, _) => kind
    case Sweep(kind, _) => kind
    case _ => op.key.kind
  }

  function Max(a: int, b: int): int {
    if a < b then b else a
  }

  /** What an update in place leaves in the body of an existing object. */
  function MergeBody(cur: Slot, want: Body): Body {
    if cur.Some? && cur.value.body.Claim? && want.Claim? then
      cur.value.body.(size := Max(cur.value.body.size, want.size))
    else if cur.Some? && cur.value.body.Workload? && want.Workload? && cur.value.body.selector.Some? then
      want.(selector := cur.value.body.selector)
    else want
  }

  function Merge(app: App, kind: Kind, cur: Slot, want: Obj): Obj {
    var annotations := if cur.Some? then cur.value.annotations else map[];
    Obj(want.labels,
        Some(Me(app)),
        if kind == Ingress then want.annotations
        else if kind == Pvc then annotations + want.annotations
        else annotations,
        if cur.Some? && kind != Ingress then cur.value.nudge else None,
        MergeBody(cur, want.body),
        if cur.Some? then cur.value.ready else None,
        if cur.Some? then cur.value.rest else "")
  }

  /** A whole replacement keeps the status, which is a subresource, and nothing else. */
  function Overwrite(cur: Slot, want: Obj): Obj {
    want.(ready := if cur.Some? then cur.value.ready else None)
  }

  const NANOS := 1_000_000_000
  const RETRY_SECONDS := 30

  /** revalidationDue: never stamped, unreadable, or stamped at least the interval ago. */
  predicate Due(nudge: Option<Stamp>, now: int) {
    match nudge
    case None => true
    case Some(Unreadable) => true
    case Some(At(t)) => now - t * NANOS >= RETRY_SECONDS * NANOS
  }

  predicate NudgeWanted(cur: Slot, now: int) {
    cur.Some? && cur.value.ready == Some(false) && Due(cur.value.nudge, now)
  }

  /** The stamp is written with whole seconds. */
  function Stamped(cur: Slot, now: int): Slot {
    if NudgeWanted(cur, now) then Some(cur.value.(nudge := Some(At(now / NANOS)))) else cur
  }

  /** retryIfNotReady's result: present and not Ready. */
  predicate StillPending(cur: Slot) {
    cur.Some? && cur.value.ready != Some(true)
  }

  /** The pod template also carries what ESO has synced so far. */
  function Resolve(want: Obj, synced: Option<string>): Obj {
    if want.body.Workload?
    then want.(body := want.body.(template := want.body.template.(externalStream := synced)))
    else want
  }

  datatype Effect = Refused | Left(slot: Slot)

  /** What an operation does to the slot of key k. */
  function Touch(app: App, op: Op, k: Key, cur: Slot, synced: Option<string>): Effect {
    match op
    case Apply(key, want) =>
      if k != key then Left(cur)
      else if Blocked(app, cur) then Refused
      else Left(Some(Merge(app, k.kind, cur, Resolve(want, synced))))
    case Guarded(key, want) =>
      if k != key || cur == None then Left(cur)
      else if Blocked(app, cur) then Refused
      else Left(Some(Merge(app, k.kind, cur, Resolve(want, synced))))
    case Replace(key, want) => Left(if k == key then Some(Overwrite(cur, want)) else cur)
    case Ensure(key, want) => Left(if k == key && cur == None then Some(want) else cur)
    case Nudge(key, now) => Left(if k == key then Stamped(cur, now) else cur)
    case Drop(key) => Left(if k == key then None else cur)
    case Prune(kind, keep) =>
      Left(if k.kind == kind && k.ns == app.ns && Managed(app, cur) && k.name !in keep then None else cur)
    case Sweep(kind, names) =>
      Left(if k.kind == kind && k.ns == app.ns && k.name in names then None else cur)
  }

  // ----- externalSecretHash -----

  function SyncedKey(app: App, name: string): Key {
    Key(Secret, app.ns, Child(app.name, name))
  }

  function SyncedKeys(app: App): set<Key> {
    set es | es in app.spec.externalSecrets :: SyncedKey(app, es.name)
  }

  function SyncedNames(app: App): seq<Item<string>> {
    var ess := app.spec.externalSecrets;
    seq(|ess|, i requires 0 <= i < |ess| => Item(ess[i].name, ""))
  }

  function DataOf(o: Obj): map<string, string> {
    if o.body.Data? then o.body.data else map[]
  }

  ghost function SyncedSections(app: App, s: Objs, names: seq<Item<string>>): seq<Section> {
    if names == [] then []
    else
      var r := SyncedSections(app, s, names[..|names| - 1]);
      var k := SyncedKey(app, names[|names| - 1].key);
      if k in s then r + [Section("es:" + names[|names| - 1].key, Listed(DataOf(s[k])))] else r
  }

  /** What externalSecretHash hashes: the data of every Secret that ESO has synced, by name. */
  ghost function Synced(app: App, s: Objs): Option<string> {
    var sections := SyncedSections(app, s, Sort(SyncedNames(app)));
    if sections == [] then None else Some(Bytes(AllLines(sections)))
  }

  lemma {:induction false} InsertElements<T(!new)>(x: Item<T>, xs: seq<Item<T>>)
    ensures forall y :: y in Insert(x, xs) <==> y == x || y in xs
  {
    if xs != [] && Less(xs[0].key, x.key) {
      InsertElements(x, xs[1..]);
    }
  }

  lemma {:induction false} SortElements<T(!new)>(xs: seq<Item<T>>)
    ensures forall y :: y in Sort(xs) <==> y in xs
  {
    if xs != [] {
      SortElements(xs[1..]);
      InsertElements(xs[0], Sort(xs[1..]));
      assert xs == [xs[0]] + xs[1..];
      forall y
        ensures y in Sort(xs) <==> y in xs
      {
        assert y in Sort(xs) <==> y == xs[0] || y in Sort(xs[1..]);
      }
    }
  }

  lemma {:induction false} SyncedSectionsFrame(app: App, s: Objs, t: Objs, names: seq<Item<string>>)
    requires forall x :: x in names ==> Get(s, SyncedKey(app, x.key)) == Get(t, SyncedKey(app, x.key))
    ensures SyncedSections(app, s, names) == SyncedSections(app, t, names)
  {
    if names != [] {
      assert names[|names| - 1] in names;
      SyncedSectionsFrame(app, s, t, names[..|names| - 1]);
    }
  }

  /** Only the synced Secrets matter to the stream. */
  lemma {:induction false} SyncedFrame(app: App, s: Objs, t: Objs)
    requires forall k :: k in SyncedKeys(app) ==> Get(s, k) == Get(t, k)
    ensures Synced(app, s) == Synced(app, t)
  {
    var names := SyncedNames(app);
    SortElements(names);
    forall x | x in Sort(names)
      ensures Get(s, SyncedKey(app, x.key)) == Get(t, SyncedKey(app, x.key))
    {
      assert x in names;
      var i: nat :| i < |names| && names[i] == x;
      assert app.spec.externalSecrets[i] in app.spec.externalSecrets;
      assert SyncedKey(app, x.key) in SyncedKeys(app);
    }
    SyncedSectionsFrame(app, s, t, Sort(names));
  }

  // ----- Running operations -----

  datatype Outcome = Outcome(objs: Objs, ok: bool)

  ghost function ToPrune(app: App, s: Objs, kind: Kind, keep: set<string>): set<string> {
    set k | k in s && k.kind == kind && k.ns == app.ns && Managed(app, Some(s[k])) && k.name !in keep :: k.name
  }

  function KeysOf(kind: Kind, ns: string, names: set<string>): set<Key> {
    set n | n in names :: Key(kind, ns, n)
  }

  /** One operation run to completion; a refused one leaves the store as it was. */
  ghost function Exec(app: App, op: Op, s: Objs): Outcome {
    match op
    case Prune(kind, keep) => Outcome(s - KeysOf(kind, app.ns, ToPrune(app, s, kind, keep)), true)
    case Sweep(kind, names) => Outcome(s - KeysOf(kind, app.ns, names), true)
    case _ =>
      match Touch(app, op, op.key, Get(s, op.key), Synced(app, s))
      case Refused => Outcome(s, false)
      case Left(slot) => Outcome(Put1(s, op.key, slot), true)
  }

  ghost function RunAll(app: App, ops: seq<Op>, s: Objs): Outcome {
    if ops == [] then Outcome(s, true)
    else
      var r := Exec(app, ops[0], s);
      if r.ok then RunAll(app, ops[1..], r.objs) else r
  }

  /** Exec acts slot by slot, as Touch says. */
  lemma {:induction false} ExecSlots(app: App, op: Op, s: Objs, k: Key)
    ensures Exec(app, op, s).ok ==> Touch(app, op, k, Get(s, k), Synced(app, s)) == Left(Get(Exec(app, op, s).objs, k))
    ensures !Exec(app, op, s).ok ==> Exec(app, op, s).objs == s && (op.Apply? || op.Guarded?) &&
                                     Blocked(app, Get(s, op.key))
  {
    match op
    case Prune(kind, keep) =>
      assert k in KeysOf(kind, app.ns, ToPrune(app, s, kind, keep)) <==>
             k.kind == kind && k.ns == app.ns && k.name in ToPrune(app, s, kind, keep);
      if k.kind == kind && k.ns == app.ns && k.name in ToPrune(app, s, kind, keep) {
        var j :| j in s && j.kind == kind && j.ns == app.ns && Managed(app, Some(s[j])) && j.name !in keep &&
                 j.name == k.name;
        assert j == k;
      }
    case Sweep(kind, names) =>
      assert k in KeysOf(kind, app.ns, names) <==> k.kind == kind && k.ns == app.ns && k.name in names;
    case _ =>
  }

  lemma {:induction false} RunAppend(app: App, a: seq<Op>, b: seq<Op>, s: Objs)
    ensures RunAll(app, a + b, s) == if RunAll(app, a, s).ok then RunAll(app, b, RunAll(app, a, s).objs)
                                     else RunAll(app, a, s)
  {
    if a == [] {
      assert a + b == b;
    } else {
      assert (a + b)[1..] == a[1..] + b;
      var r := Exec(app, a[0], s);
      if r.ok {
        RunAppend(app, a[1..], b, r.objs);
      }
    }
  }

  /** Stores that hold the same slots are the same store. */
  lemma {:induction false} SameSlots(s: Objs, t: Objs)
    requires forall k :: Get(s, k) == Get(t, k)
    ensures s == t
  {
    forall k
      ensures k in s <==> k in t
      ensures k in s ==> s[k] == t[k]
    {
      assert Get(s, k) == Get(t, k);
    }
  }

  // ----- One API call at a time -----

  /** A run in progress: the store, the operations left, whether it failed, and the pending flag of
      the ESO retry step. */
  datatype Run = Run(objs: Objs, ops: seq<Op>, failed: bool, pending: bool)

  /** One call. A listing turns into deletions, which are made in any order: pick names the next one,
      and a pick that is not on the list does nothing. */
  ghost function Step(app: App, r: Run, pick: string): Run {
    if r.ops == [] then r
    else
      var op, tail := r.ops[0], r.ops[1..];
      match op
      case Prune(kind, keep) => r.(ops := [Sweep(kind, ToPrune(app, r.objs, kind, keep))] + tail)
      case Sweep(kind, names) =>
        if names == {} then r.(ops := tail)
        else if pick in names
             then r.(objs := r.objs - {Key(kind, app.ns, pick)}, ops := [Sweep(kind, names - {pick})] + tail)
        else r
      case Guarded(key, want) =>
        if key in r.objs then r.(ops := [Apply(key, want)] + tail) else r.(ops := tail)
      case _ =>
        var out := Exec(app, op, r.objs);
        Run(out.objs, if out.ok then tail else [], !out.ok,
            r.pending || (op.Nudge? && StillPending(Get(r.objs, op.key))))
  }

  ghost function Steps(app: App, r: Run, picks: seq<string>): Run {
    if picks == [] then r else Step(app, Steps(app, r, picks[..|picks| - 1]), picks[|picks| - 1])
  }

  ghost predicate Reaches(app: App, from: Run, to: Run) {
    exists picks :: Steps(app, from, picks) == to
  }

  lemma {:induction false} StepsAppend(app: App, r: Run, a: seq<string>, b: seq<string>)
    ensures Steps(app, r, a + b) == Steps(app, Steps(app, r, a), b)
  {
    if b == [] {
      assert a + b == a;
    } else {
      assert (a + b)[..|a + b| - 1] == a + b[..|b| - 1];
      StepsAppend(app, r, a, b[..|b| - 1]);
    }
  }

  lemma {:induction false} ReachesRefl(app: App, r: Run)
    ensures Reaches(app, r, r)
  {
    assert Steps(app, r, []) == r;
  }

  lemma {:induction false} ReachesTrans(app: App, a: Run, b: Run, c: Run)
    requires Reaches(app, a, b) && Reaches(app, b, c)
    ensures Reaches(app, a, c)
  {
    var p :| Steps(app, a, p) == b;
    var q :| Steps(app, b, q) == c;
    StepsAppend(app, a, p, q);
  }

  lemma {:induction false} ReachesStep(app: App, r: Run, pick: string)
    ensures Reaches(app, r, Step(app, r, pick))
  {
    assert [pick][..0] == [];
    assert Steps(app, r, [pick]) == Step(app, r, pick);
  }

  lemma {:induction false} SequenceSplits(op: Op, rest: seq<Op>, post: seq<Op>)
    ensures ([op] + rest)[0] == op && ([op] + rest)[1..] == rest
    ensures [op] + (rest + post) == [op] + rest + post
  {
  }

  lemma {:induction false} Regrouped(a: seq<Op>, b: seq<Op>, c: seq<Op>)
    ensures a + b + c == a + (b + c)
  {
  }

  /** A list whose head operation is replaced by one that ends in the same store ends there too. */
  lemma {:induction false} SwapHead(app: App, op: Op, s: Objs, op': Op, s': Objs, rest: seq<Op>)
    requires Exec(app, op, s) == Exec(app, op', s')
    ensures RunAll(app, [op] + rest, s) == RunAll(app, [op'] + rest, s')
  {
    SequenceSplits(op, rest, []);
    SequenceSplits(op', rest, []);
  }

  /** A list whose head operation leaves the store alone ends where its tail does. */
  lemma {:induction false} SkipHead(app: App, op: Op, s: Objs, rest: seq<Op>)
    requires Exec(app, op, s) == Outcome(s, true)
    ensures RunAll(app, [op] + rest, s) == RunAll(app, rest, s)
  {
    SequenceSplits(op, rest, []);
  }

  /** A call that turns the head operation into another. */
  lemma {:induction false} SwapKeeps(app: App, r: Run, r': Run, op: Op, op': Op, rest: seq<Op>, post: seq<Op>)
      returns (q': seq<Op>)
    requires r' == r.(objs := r'.objs, ops := [op'] + (rest + post))
    requires Exec(app, op, r.objs) == Exec(app, op', r'.objs)
    ensures r'.ops == q' + post && RunAll(app, q', r'.objs) == RunAll(app, [op] + rest, r.objs)
  {
    q' := [op'] + rest;
    SequenceSplits(op', rest, post);
    SwapHead(app, op, r.objs, op', r'.objs, rest);
  }

  lemma {:induction false} SweepKeeps(app: App, r: Run, pick: string, op: Op, rest: seq<Op>, post: seq<Op>)
      returns (q': seq<Op>)
    requires op.Sweep? && r.ops == [op] + (rest + post) && !r.failed
    ensures var r' := Step(app, r, pick);
            !r'.failed && r'.ops == q' + post && RunAll(app, q', r'.objs) == RunAll(app, [op] + rest, r.objs)
  {
    SequenceSplits(op, rest + post, []);
    if op.names == {} {
      q' := rest;
      assert r.objs - KeysOf(op.kind, app.ns, {}) == r.objs;
      SkipHead(app, op, r.objs, rest);
    } else if pick in op.names {
      SweepOne(r.objs, op.kind, app.ns, op.names, pick);
      q' := SwapKeeps(app, r, Step(app, r, pick), op, Sweep(op.kind, op.names - {pick}), rest, post);
    } else {
      q' := [op] + rest;
      SequenceSplits(op, rest, post);
    }
  }

  lemma {:induction false} GuardedKeeps(app: App, r: Run, pick: string, op: Op, rest: seq<Op>, post: seq<Op>)
      returns (q': seq<Op>)
    requires op.Guarded? && r.ops == [op] + (rest + post) && !r.failed
    ensures var r' := Step(app, r, pick);
            !r'.failed && r'.ops == q' + post && RunAll(app, q', r'.objs) == RunAll(app, [op] + rest, r.objs)
  {
    SequenceSplits(op, rest + post, []);
    if op.key in r.objs {
      q' := SwapKeeps(app, r, Step(app, r, pick), op, Apply(op.key, op.want), rest, post);
    } else {
      q' := rest;
      assert Put1(r.objs, op.key, None) == r.objs;
      SkipHead(app, op, r.objs, rest);
    }
  }

  lemma {:induction false} PruneKeeps(app: App, r: Run, pick: string, op: Op, rest: seq<Op>, post: seq<Op>)
      returns (q': seq<Op>)
    requires op.Prune? && r.ops == [op] + (rest + post) && !r.failed
    ensures var r' := Step(app, r, pick);
            !r'.failed && r'.ops == q' + post && RunAll(app, q', r'.objs) == RunAll(app, [op] + rest, r.objs)
  {
    SequenceSplits(op, rest + post, []);
    q' := SwapKeeps(app, r, Step(app, r, pick), op, Sweep(op.kind, ToPrune(app, r.objs, op.kind, op.keep)), rest, post);
  }

  /** A call that completes its operation. */
  lemma {:induction false} WholeKeeps(app: App, r: Run, pick: string, op: Op, rest: seq<Op>, post: seq<Op>)
    requires !op.Prune? && !op.Sweep? && !op.Guarded? && r.ops == [op] + (rest + post) && !r.failed
    ensures var r' := Step(app, r, pick);
            if r'.failed then RunAll(app, [op] + rest, r.objs) == Outcome(r'.objs, false) && r'.ops == []
            else r'.ops == rest + post && RunAll(app, rest, r'.objs) == RunAll(app, [op] + rest, r.objs)
  {
    SequenceSplits(op, rest + post, []);
    SequenceSplits(op, rest, []);
    ExecSlots(app, op, r.objs, op.key);
  }

  /** A step makes progress on the head operation without changing where the run as a whole ends:
      with q the part of the list in progress and post what follows, q becomes some q' that, from the
      new store, ends where q did. */
  lemma {:induction false} StepKeeps(app: App, r: Run, pick: string, q: seq<Op>, post: seq<Op>) returns (q': seq<Op>)
    requires r.ops == q + post && q != [] && !r.failed
    ensures var r' := Step(app, r, pick);
            if r'.failed then RunAll(app, q, r.objs) == Outcome(r'.objs, false) && r'.ops == []
            else r'.ops == q' + post && RunAll(app, q', r'.objs) == RunAll(app, q, r.objs)
  {
    var op, rest := q[0], q[1..];
    assert q == [op] + rest;
    SequenceSplits(op, rest, post);
    match op
    case Prune(_, _) =>
      q' := PruneKeeps(app, r, pick, op, rest, post);
    case Sweep(_, _) =>
      q' := SweepKeeps(app, r, pick, op, rest, post);
    case Guarded(_, _) =>
      q' := GuardedKeeps(app, r, pick, op, rest, post);
    case _ =>
      q' := rest;
      WholeKeeps(app, r, pick, op, rest, post);
  }

  lemma {:induction false} SweepOne(s: Objs, kind: Kind, ns: string, names: set<string>, n: string)
    requires n in names
    ensures s - {Key(kind, ns, n)} - KeysOf(kind, ns, names - {n}) == s - KeysOf(kind, ns, names)
  {
    assert {Key(kind, ns, n)} + KeysOf(kind, ns, names - {n}) == KeysOf(kind, ns, names) by {
      forall k
        ensures k in {Key(kind, ns, n)} + KeysOf(kind, ns, names - {n}) <==> k in KeysOf(kind, ns, names)
      {
        if k in KeysOf(kind, ns, names) && k != Key(kind, ns, n) {
          assert k.name in names - {n};
        }
      }
    }
  }

  /** With post the end of its program, a run has still to finish a first part, from where it stands ending as
      goal says; or it failed; or it has gone past that part. */
  ghost predicate Inside(app: App, r: Run, post: seq<Op>, goal: Outcome) {
    if r.failed then r.ops == [] && (post == [] ==> goal == Outcome(r.objs, false))
    else |r.ops| >= |post| ==>
      r.ops[|r.ops| - |post|..] == post && RunAll(app, r.ops[..|r.ops| - |post|], r.objs) == goal
  }

  lemma {:induction false} InsideIntro(app: App, r: Run, q: seq<Op>, post: seq<Op>, goal: Outcome)
    requires r.ops == q + post && !r.failed && RunAll(app, q, r.objs) == goal
    ensures Inside(app, r, post, goal)
  {
    assert r.ops[|r.ops| - |post|..] == post && r.ops[..|r.ops| - |post|] == q;
  }

  lemma {:induction false} InsideStep(app: App, r: Run, pick: string, post: seq<Op>, goal: Outcome)
    requires post == [] || post[0].Apply?
    requires Inside(app, r, post, goal)
    ensures Inside(app, Step(app, r, pick), post, goal)
  {
    if !r.failed && |r.ops| > |post| {
      var q := r.ops[..|r.ops| - |post|];
      assert r.ops == q + post;
      var q' := StepKeeps(app, r, pick, q, post);
      if !Step(app, r, pick).failed {
        InsideIntro(app, Step(app, r, pick), q', post, goal);
      }
    } else if !r.failed && r.ops != [] {
      assert |r.ops| == |post| ==> r.ops == post;
      assert |Step(app, r, pick).ops| <= |r.ops|;
    }
  }

  /** Whatever calls a run has made, finishing the part pre of its program from where it stands ends
      where running pre in one go from the start does, until the run has gone past that part. */
  lemma {:induction false} RunInside(app: App, s: Objs, pre: seq<Op>, post: seq<Op>, picks: seq<string>, pending: bool)
    requires post == [] || post[0].Apply?
    ensures Inside(app, Steps(app, Run(s, pre + post, false, pending), picks), post, RunAll(app, pre, s))
  {
    var start := Run(s, pre + post, false, pending);
    if picks == [] {
      InsideIntro(app, start, pre, post, RunAll(app, pre, s));
    } else {
      RunInside(app, s, pre, post, picks[..|picks| - 1], pending);
      InsideStep(app, Steps(app, start, picks[..|picks| - 1]), picks[|picks| - 1], post, RunAll(app, pre, s));
    }
  }

  /** Confluence: every completed run, whatever order its deletions took, ends in the one store that
      RunAll gives, and fails exactly when RunAll does. */
  lemma {:induction false} CompleteRun(app: App, s: Objs, ops: seq<Op>, pending: bool, to: Run)
    requires Reaches(app, Run(s, ops, false, pending), to) && to.ops == []
    ensures RunAll(app, ops, s) == Outcome(to.objs, !to.failed)
  {
    var picks :| Steps(app, Run(s, ops, false, pending), picks) == to;
    assert ops + [] == ops;
    RunInside(app, s, ops, [], picks, pending);
  }
}
