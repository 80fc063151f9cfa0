/**
 The reconciler as the source has it: loops that read, mutate and write objects of the cluster one
 API call at a time, each call of which may fail. Every method is proved to carry out the operations
 that module Desired lists for its step, so the results about those lists hold of this code.
 */
module ReconcileLoops {
  import opened Common
  import opened Names
  import opened Chain
  import opened Spec
  import opened Pod
  import opened ConfigHash
  import opened Cluster
  import opened Desired
  import opened Convergence
  import opened Fixpoint
  import opened Rendering
  import opened Runs

  datatype Read = Down | Absent | Present(obj: Obj)

  /** Known not to be Ready, and never stamped readably, or not within the last 30 s. */
  predicate StampDue(cur: Slot, now: int) {
    cur.Some? && cur.value.ready == Some(false) &&
    (cur.value.nudge.None? || cur.value.nudge.value.Unreadable? ||
     now >= (cur.value.nudge.value.second + 30) * 1_000_000_000)
  }

  const BLANK := Obj(map[], None, map[], None, Identity, None, "")

  /** What becomes of an API call: it is answered, it never takes place, or it takes place and its reply is lost. */
  datatype Answer = Replied | Dropped | Lost

  function Unanswered(answers: seq<Answer>): nat {
    if answers == [] then 0 else (if answers[0] == Replied then 0 else 1) + Unanswered(answers[1..])
  }

  /** Calls that use up answers: once one goes unanswered there are fewer such calls to come. */
  predicate Spent(before: seq<Answer>, wasDown: bool, now: seq<Answer>, isDown: bool) {
    (wasDown ==> isDown) && Unanswered(now) <= Unanswered(before) &&
    (isDown && !wasDown ==> Unanswered(now) < Unanswered(before))
  }

  class Reconciler {
    var objs: Objs
    /** What becomes of the coming API calls; the calls after those are all answered. */
    var answers: seq<Answer>
    /** Some call has gone unanswered since this was last cleared. */
    ghost var down: bool

    constructor (objs: Objs, answers: seq<Answer>)
      ensures this.objs == objs && this.answers == answers && !down
    {
      this.objs := objs;
      this.answers := answers;
      this.down := false;
    }

    // ----- API calls -----

    /** One call: whether it is answered, and whether it takes place. */
    method Call() returns (up: bool, done: bool)
      modifies this`answers, this`down
      ensures Spent(old(answers), old(down), answers, down)
      ensures up <==> old(answers) == [] || old(answers)[0] == Replied
      ensures done <==> old(answers) == [] || old(answers)[0] != Dropped
      ensures answers == if old(answers) == [] then [] else old(answers)[1..]
      ensures down <==> old(down) || !up
    {
      up, done := true, true;
      if answers != [] {
        up, done, answers := answers[0] == Replied, answers[0] != Dropped, answers[1..];
      }
      down := down || !up;
    }

    method Fetch(key: Key) returns (r: Read)
      modifies this`answers, this`down
      ensures Spent(old(answers), old(down), answers, down)
      ensures down <==> old(down) || r.Down?
      ensures !r.Down? ==> (if key in objs then r == Present(objs[key]) else r == Absent)
    {
      var up, _ := Call();
      if !up {
        return Down;
      }
      r := if key in objs then Present(objs[key]) else Absent;
    }

    /** The end of a CreateOrUpdate: SetControllerReference, then Create or Update. */
    method Commit(app: App, key: Key, obj: Obj) returns (ok: bool)
      modifies this
      ensures Spent(old(answers), old(down), answers, down)
      ensures objs == old(objs) || (!Blocked(app, Some(obj)) && objs == old(objs)[key := obj.(owner := Some(Me(app)))])
      ensures ok ==> !Blocked(app, Some(obj)) && objs == old(objs)[key := obj.(owner := Some(Me(app)))]
      ensures !ok ==> down || Blocked(app, Some(obj))
    {
      if Blocked(app, Some(obj)) {
        return false;
      }
      var done;
      ok, done := Call();
      if done {
        objs := objs[key := obj.(owner := Some(Me(app)))];
      }
    }

    /** Get, then Create or replace whole. */
    method CreateOrReplace(key: Key, want: Obj) returns (ok: bool)
      modifies this
      ensures Spent(old(answers), old(down), answers, down)
      ensures objs == old(objs) || objs == old(objs)[key := Overwrite(Get(old(objs), key), want)]
      ensures if ok then objs == old(objs)[key := Overwrite(Get(old(objs), key), want)] else down
    {
      var existing := Fetch(key);
      if existing.Down? {
        return false;
      }
      var done;
      ok, done := Call();
      if done {
        objs := objs[key := if existing.Present? then want.(ready := existing.obj.ready) else want.(ready := None)];
      }
    }

    /** Get, then Create only when absent. */
    method GetOrCreate(key: Key, want: Obj) returns (ok: bool)
      modifies this
      ensures Spent(old(answers), old(down), answers, down)
      ensures objs == old(objs) || (key !in old(objs) && objs == old(objs)[key := want])
      ensures if ok then objs == (if key in old(objs) then old(objs) else old(objs)[key := want]) else down
    {
      var existing := Fetch(key);
      if existing.Down? {
        return false;
      }
      if existing.Present? {
        return true;
      }
      var done;
      ok, done := Call();
      if done {
        objs := objs[key := want];
      }
    }

    method Delete(key: Key) returns (ok: bool)
      modifies this
      ensures Spent(old(answers), old(down), answers, down)
      ensures objs == old(objs) || objs == old(objs) - {key}
      ensures if ok then objs == old(objs) - {key} else down
    {
      var done;
      ok, done := Call();
      if done {
        objs := objs - {key};
      }
    }

    // ----- Pruning -----

    /** The objects of a kind that carry the app's labels. */
    method List(app: App, kind: Kind) returns (up: bool, items: set<Key>)
      modifies this`answers, this`down
      ensures Spent(old(answers), old(down), answers, down)
      ensures !up ==> down
      ensures up ==> items == set k | k in objs && k.kind == kind && k.ns == app.ns &&
                     HasLabels(objs[k].labels, StandardLabels(app.name))
    {
      var done;
      up, done := Call();
      items := set k | k in objs && k.kind == kind && k.ns == app.ns &&
               HasLabels(objs[k].labels, StandardLabels(app.name));
    }

    /** Lists, then deletes what is stale. */
    method DeleteStale(app: App, kind: Kind, desired: set<string>, ghost p: bool) returns (ok: bool)
      modifies this
      ensures Spent(old(answers), old(down), answers, down)
      ensures Went(app, [Prune(kind, desired)], old(objs), p, objs, p, ok, down)
    {
      ghost var start := Run(objs, [Prune(kind, desired)], false, p);
      ReachesRefl(app, start);
      var items;
      ok, items := List(app, kind);
      if !ok {
        return;
      }
      ghost var todo := ToPrune(app, objs, kind, desired);
      Advance(app, start, objs, Prune(kind, desired), [], p, "");
      ListedNames(app, objs, kind, desired);
      ok := DeleteListed(app, kind, desired, items, start, todo, p);
    }

    /** The delete loop of every reconcile that prunes: what is not controlled by the app, or desired, is
        skipped. The listing is visited in any order. */
    method DeleteListed(app: App, kind: Kind, desired: set<string>, listed: set<Key>,
                        ghost start: Run, ghost names: set<string>, ghost p: bool) returns (ok: bool)
      requires forall k :: k in listed ==>
                 k in objs && k.kind == kind && k.ns == app.ns && HasLabels(objs[k].labels, StandardLabels(app.name))
      requires forall n :: n in names ==>
                 Key(kind, app.ns, n) in listed && n !in desired && Managed(app, Get(objs, Key(kind, app.ns, n)))
      requires forall k :: k in listed && Managed(app, Some(objs[k])) && k.name !in desired ==> k.name in names
      requires Reaches(app, start, Run(objs, [Sweep(kind, names)] + [], false, p))
      modifies this
      ensures Spent(old(answers), old(down), answers, down)
      ensures if ok then Reaches(app, start, Run(objs, [], false, p)) else Stopped(app, start, objs, down)
    {
      var items := listed;
      ghost var s, todo := objs, names;
      while items != {}
        invariant Spent(old(answers), old(down), answers, down)
        invariant items <= listed
        invariant forall k :: k in items ==> Get(objs, k) == Some(s[k])
        invariant todo <= names && forall n :: n in todo ==> Key(kind, app.ns, n) in items
        invariant forall k :: k in items && Managed(app, Some(s[k])) && k.name !in desired ==> k.name in todo
        invariant Reaches(app, start, Run(objs, [Sweep(kind, todo)] + [], false, p))
        decreases items
      {
        var k :| k in items;
        items := items - {k};
        assert Get(objs, k) == Some(s[k]) && k == Key(kind, app.ns, k.name);
        if objs[k].owner.None? || objs[k].owner.value.uid != app.uid {
          continue;
        }
        if k.name in desired {
          continue;
        }
        ghost var here := objs;
        Advance(app, start, here, Sweep(kind, todo), [], p, k.name);
        ok := Delete(k);
        if !ok {
          StoppedAt(app, start, Run(here, [Sweep(kind, todo)] + [], false, p), down, here);
          StoppedAt(app, start, Step(app, Run(here, [Sweep(kind, todo)] + [], false, p), k.name), down, here - {k});
          return;
        }
        todo := todo - {k.name};
      }
      assert todo == {};
      Advance(app, start, objs, Sweep(kind, todo), [], p, "");
      ok := true;
    }

    // ----- ConfigMaps and Secrets -----

    /** One ConfigMap. */
    method WriteConfigMap(app: App, cm: ConfigMapMount, ghost start: Run, ghost rest: seq<Op>, ghost p: bool)
        returns (ok: bool)
      requires Reaches(app, start, Run(objs, [ConfigMapWrite(app, cm)] + rest, false, p))
      modifies this
      ensures Spent(old(answers), old(down), answers, down)
      ensures if ok then Reaches(app, start, Run(objs, rest, false, p)) else Stopped(app, start, objs, down)
    {
      var key := Key(ConfigMap, app.ns, app.name + "-" + cm.name);
      AdvanceApply(app, start, objs, key, ConfigMapWrite(app, cm).want, rest, p);
      var existing := Fetch(key);
      if existing.Down? {
        return false;
      }
      var obj := if existing.Present? then existing.obj else BLANK;
      obj := obj.(labels := StandardLabels(app.name));
      obj := obj.(body := Data(cm.data));
      ok := Commit(app, key, obj);
    }

    method ReconcileConfigMaps(app: App, ghost p: bool) returns (ok: bool)
      modifies this
      ensures Spent(old(answers), old(down), answers, down)
      ensures Went(app, ConfigMapOps(app), old(objs), p, objs, p, ok, down)
    {
      var cms := app.spec.configMaps;
      ghost var start := Run(objs, ConfigMapOps(app), false, p);
      ghost var prune := [Prune(ConfigMap, WriteNames(ConfigMapWrites(app, cms)))];
      ReachesRefl(app, start);
      var desired: set<string> := {};
      for i := 0 to |cms|
        invariant Spent(old(answers), old(down), answers, down)
        invariant desired + WriteNames(ConfigMapWrites(app, cms[i..])) == WriteNames(ConfigMapWrites(app, cms))
        invariant Reaches(app, start, Run(objs, ConfigMapWrites(app, cms[i..]) + prune, false, p))
      {
        UnfoldConfigMaps(app, cms, i, prune);
        desired := desired + {app.name + "-" + cms[i].name};
        ok := WriteConfigMap(app, cms[i], start, ConfigMapWrites(app, cms[i + 1..]) + prune, p);
        if !ok {
          return;
        }
      }
      ghost var s := objs;
      ok := DeleteStale(app, ConfigMap, desired, p);
      assert [] + prune == prune + [];
      WentThen(app, start, prune, [], s, p, objs, p, ok, down);
    }

    /** One inline Secret. */
    method WriteSecret(app: App, sec: SecretMount, ghost start: Run, ghost rest: seq<Op>, ghost p: bool)
        returns (ok: bool)
      requires Reaches(app, start, Run(objs, [SecretWrite(app, sec)] + rest, false, p))
      modifies this
      ensures Spent(old(answers), old(down), answers, down)
      ensures if ok then Reaches(app, start, Run(objs, rest, false, p)) else Stopped(app, start, objs, down)
    {
      var key := Key(Secret, app.ns, app.name + "-" + sec.name);
      AdvanceApply(app, start, objs, key, SecretWrite(app, sec).want, rest, p);
      var existing := Fetch(key);
      if existing.Down? {
        return false;
      }
      var obj := if existing.Present? then existing.obj else BLANK;
      obj := obj.(labels := StandardLabels(app.name));
      obj := obj.(body := Data(if sec.data.Some? then sec.data.value else map[]));
      ok := Commit(app, key, obj);
    }

    method ReconcileSecrets(app: App, ghost p: bool) returns (ok: bool)
      modifies this
      ensures Spent(old(answers), old(down), answers, down)
      ensures Went(app, SecretOps(app), old(objs), p, objs, p, ok, down)
    {
      var secs := app.spec.secrets;
      ghost var start := Run(objs, SecretOps(app), false, p);
      ghost var prune := [Prune(Secret, WriteNames(SecretWrites(app, secs)))];
      ReachesRefl(app, start);
      var desired: set<string> := {};
      for i := 0 to |secs|
        invariant Spent(old(answers), old(down), answers, down)
        invariant desired + WriteNames(SecretWrites(app, secs[i..])) == WriteNames(SecretWrites(app, secs))
        invariant Reaches(app, start, Run(objs, SecretWrites(app, secs[i..]) + prune, false, p))
      {
        UnfoldSecrets(app, secs, i, prune);
        if secs[i].secretRef != "" {
          continue;
        }
        desired := desired + {app.name + "-" + secs[i].name};
        ok := WriteSecret(app, secs[i], start, SecretWrites(app, secs[i + 1..]) + prune, p);
        if !ok {
          return;
        }
      }
      ghost var s := objs;
      ok := DeleteStale(app, Secret, desired, p);
      assert [] + prune == prune + [];
      WentThen(app, start, prune, [], s, p, objs, p, ok, down);
    }

    // ----- SecretStore -----

    /** ensureSecretStoreServiceAccount. */
    method EnsureServiceAccount(app: App, store: SecretStoreSpec, owned: bool) returns (ok: bool)
      modifies this
      ensures Spent(old(answers), old(down), answers, down)
      ensures var key := Key(ServiceAccount, app.ns, AccountName(app, store));
              var want := Fresh(map[], if owned then Some(Me(app)) else None, Identity);
              (objs == old(objs) || (key !in old(objs) && objs == old(objs)[key := want])) &&
              if ok then objs == (if key in old(objs) then old(objs) else old(objs)[key := want]) else down
    {
      var name := if AppScoped(store) then app.name else app.ns;
      var account := Fresh(map[], None, Identity);
      if owned {
        account := account.(owner := Some(Me(app)));
      }
      ok := GetOrCreate(Key(ServiceAccount, app.ns, name), account);
    }

    method ReconcileSecretStore(app: App, disc: Discovery, ghost p: bool) returns (ok: bool)
      modifies this
      ensures Spent(old(answers), old(down), answers, down)
      ensures Went(app, StoreOps(app, disc), old(objs), p, objs, p, ok, down)
    {
      ghost var start := Run(objs, StoreOps(app, disc), false, p);
      ReachesRefl(app, start);
      if app.spec.secretStore.None? {
        return true;
      }
      var store := app.spec.secretStore.value;
      var owned := AppScoped(store);
      ghost var account := Key(ServiceAccount, app.ns, AccountName(app, store));
      ghost var rest := if disc.secretStores then [StoreOp(app, store)] else [];
      assert StoreOps(app, disc) == [AccountOp(app, store)] + rest;
      AdvanceEnsure(app, start, objs, account, Fresh(map[], StoreOwner(app, store), Identity), rest, p);
      ok := EnsureServiceAccount(app, store, owned);
      if !ok || !disc.secretStores {
        return;
      }
      var body := BuildSecretStore(app, store);
      var want := Fresh(map[], if owned then Some(Me(app)) else None, body);
      var key := Key(SecretStore, app.ns, store.name);
      assert rest == [Ensure(key, want)] + [];
      AdvanceEnsure(app, start, objs, key, want, [], p);
      ok := GetOrCreate(key, want);
    }

    // ----- ExternalSecrets -----

    method ReconcileExternalSecrets(app: App, disc: Discovery, ghost p: bool) returns (ok: bool)
      modifies this
      ensures Spent(old(answers), old(down), answers, down)
      ensures Went(app, ExternalOps(app, disc), old(objs), p, objs, p, ok, down)
    {
      ghost var start := Run(objs, ExternalOps(app, disc), false, p);
      ReachesRefl(app, start);
      if !disc.externalSecrets {
        return true;
      }
      var ess := app.spec.externalSecrets;
      ghost var prune := [Prune(ExternalSecret, WriteNames(ExternalWrites(app, ess)))];
      var desired: set<string> := {};
      for i := 0 to |ess|
        invariant Spent(old(answers), old(down), answers, down)
        invariant desired + WriteNames(ExternalWrites(app, ess[i..])) == WriteNames(ExternalWrites(app, ess))
        invariant Reaches(app, start, Run(objs, ExternalWrites(app, ess[i..]) + prune, false, p))
      {
        ghost var rest := ExternalWrites(app, ess[i + 1..]) + prune;
        UnfoldExternals(app, ess, i, prune);
        AdvanceReplace(app, start, objs, ExternalKey(app, ess[i]), ExternalWrite(app, ess[i]).want, rest, p);
        var name := app.name + "-" + ess[i].name;
        desired := desired + {name};
        var storeKind := ess[i].storeKind;
        if storeKind == "" {
          storeKind := "ClusterSecretStore";
        }
        var refreshInterval := ess[i].refreshInterval;
        if refreshInterval == "" {
          refreshInterval := "1m";
        }
        var labels := StandardLabels(app.name);
        var body := External(refreshInterval, ess[i].store, storeKind, name, labels, ess[i].data, ess[i].dataFrom);
        ok := CreateOrReplace(Key(ExternalSecret, app.ns, name), Fresh(labels, Some(Me(app)), body));
        if !ok {
          return;
        }
      }
      ghost var s := objs;
      ok := DeleteStale(app, ExternalSecret, desired, p);
      assert [] + prune == prune + [];
      WentThen(app, start, prune, [], s, p, objs, p, ok, down);
    }

    // ----- Nudging -----

    /** retryIfNotReady. */
    method RetryIfNotReady(key: Key, now: int) returns (ok: bool, pending: bool)
      modifies this
      ensures Spent(old(answers), old(down), answers, down)
      ensures ok ==> pending == StillPending(Get(old(objs), key))
      ensures ok ==> objs == if NudgeWanted(Get(old(objs), key), now)
                             then old(objs)[key := old(objs)[key].(nudge := Some(At(now / NANOS)))] else old(objs)
      ensures !ok ==> down
      ensures objs == old(objs) || (NudgeWanted(Get(old(objs), key), now) &&
                                    objs == old(objs)[key := old(objs)[key].(nudge := Some(At(now / NANOS)))])
      // Spelled out:
      ensures ok ==> (pending <==> key in old(objs) && old(objs)[key].ready != Some(true))
      ensures ok && !StampDue(Get(old(objs), key), now) ==> objs == old(objs)
      ensures ok && StampDue(Get(old(objs), key), now) ==>
                objs == old(objs)[key := old(objs)[key].(nudge := Some(At(now / 1_000_000_000)))]
    {
      var read := Fetch(key);
      if read.Down? {
        return false, false;
      }
      if read.Absent? {
        return true, false;
      }
      var known := read.obj.ready.Some?;
      if known && read.obj.ready.value {
        return true, false;
      }
      if !known || !Due(read.obj.nudge, now) {
        return true, true;
      }
      var done;
      ok, done := Call();
      if done {
        objs := objs[key := read.obj.(nudge := Some(At(now / NANOS)))];
      }
      pending := true;
    }

    method RetryFailedExternalSecrets(app: App, disc: Discovery, now: int) returns (ok: bool, pending: bool)
      modifies this
      ensures Spent(old(answers), old(down), answers, down)
      ensures Went(app, RetryOps(app, disc, now), old(objs), false, objs, pending, ok, down)
    {
      ghost var start := Run(objs, RetryOps(app, disc, now), false, false);
      ReachesRefl(app, start);
      pending := false;
      if app.spec.externalSecrets == [] {
        return true, false;
      }
      ghost var nudges := if disc.externalSecrets then ExternalNudges(app, app.spec.externalSecrets, now) else [];
      if app.spec.secretStore.Some? && disc.secretStores {
        var key := Key(SecretStore, app.ns, app.spec.secretStore.value.name);
        assert RetryOps(app, disc, now) == [Nudge(key, now)] + nudges;
        AdvanceNudge(app, start, objs, key, now, nudges, false);
        ok, pending := RetryIfNotReady(key, now);
        if !ok {
          return;
        }
      } else {
        assert RetryOps(app, disc, now) == nudges;
      }
      if !disc.externalSecrets {
        return true, pending;
      }
      var ess := app.spec.externalSecrets;
      for i := 0 to |ess|
        invariant Spent(old(answers), old(down), answers, down)
        invariant Reaches(app, start, Run(objs, ExternalNudges(app, ess[i..], now), false, pending))
      {
        ghost var rest := ExternalNudges(app, ess[i + 1..], now);
        assert ess[i..][1..] == ess[i + 1..];
        var key := Key(ExternalSecret, app.ns, app.name + "-" + ess[i].name);
        assert ExternalNudges(app, ess[i..], now) == [Nudge(key, now)] + rest;
        AdvanceNudge(app, start, objs, key, now, rest, pending);
        var still;
        ok, still := RetryIfNotReady(key, now);
        if !ok {
          return;
        }
        pending := pending || still;
      }
      ok := true;
    }

    // ----- Deployment -----

    /** externalSecretHash up to the digest: the data of the Secrets that ESO has synced so far. */
    method SyncedStream(app: App) returns (ok: bool, stream: Option<string>)
      modifies this`answers, this`down
      ensures Spent(old(answers), old(down), answers, down)
      ensures ok ==> stream == Synced(app, objs)
      ensures !ok ==> down
    {
      var names := Sort(SyncedNames(app));
      var found, h := false, "";
      for i := 0 to |names|
        invariant Spent(old(answers), old(down), answers, down)
        invariant h == Bytes(AllLines(SyncedSections(app, objs, names[..i])))
        invariant found <==> SyncedSections(app, objs, names[..i]) != []
      {
        SyncedSnoc(app, objs, names, i);
        var secret := Fetch(SyncedKey(app, names[i].key));
        if secret.Down? {
          return false, None;
        }
        if secret.Absent? {
          continue;
        }
        found := true;
        h := WriteSection(h, "es:" + names[i].key, DataOf(secret.obj));
      }
      assert names[..|names|] == names;
      ok, stream := true, if found then Some(h) else None;
    }

    /** The pod template as the mutate function fills it in. */
    method BuildTemplate(app: App, synced: Option<string>) returns (template: Template)
      ensures template == PodTemplate(app).(externalStream := synced)
    {
      var config := ComputeConfigStream(app.spec);
      var volumes := BuildVolumes(app);
      var initContainers := BuildInitContainers(app);
      var containers := BuildContainers(app);
      template := Template(SelectorLabels(app.name), config, synced, volumes, initContainers, containers,
                           app.spec.podRest);
    }

    /** The mutate function: the fields of the Deployment that the operator owns, the selector only when it is new. */
    method MutateDeployment(app: App, existing: Slot, synced: Option<string>) returns (obj: Obj)
      ensures Blocked(app, Some(obj)) <==> Blocked(app, existing)
      ensures obj.(owner := Some(Me(app))) == Merge(app, Deployment, existing, Resolve(DeployOp(app).want, synced))
    {
      obj := if existing.Some? then existing.value else BLANK;
      var replicas := 1;
      if app.spec.replicas.Some? {
        replicas := app.spec.replicas.value;
      }
      var selector := if obj.body.Workload? then obj.body.selector else None;
      if selector.None? {
        selector := Some(SelectorLabels(app.name));
      }
      var template := BuildTemplate(app, synced);
      obj := obj.(labels := StandardLabels(app.name));
      obj := obj.(body := Workload(replicas, app.spec.disk.Some?, selector, template));
    }

    method ReconcileDeployment(app: App, ghost p: bool) returns (ok: bool)
      modifies this
      ensures Spent(old(answers), old(down), answers, down)
      ensures Went(app, [DeployOp(app)], old(objs), p, objs, p, ok, down)
    {
      var key := Key(Deployment, app.ns, app.name);
      ghost var start, want := Run(objs, [DeployOp(app)], false, p), DeployOp(app).want;
      ReachesRefl(app, start);
      assert [DeployOp(app)] == [Apply(key, want)] + [];
      AdvanceApply(app, start, objs, key, want, [], p);
      var synced;
      ok, synced := SyncedStream(app);
      if !ok {
        return;
      }
      var existing := Fetch(key);
      if existing.Down? {
        return false;
      }
      var obj := MutateDeployment(app, if existing.Present? then Some(existing.obj) else None, synced);
      ok := Commit(app, key, obj);
    }

    // ----- Service -----

    method ReconcileService(app: App, ghost p: bool) returns (ok: bool)
      modifies this
      ensures Spent(old(answers), old(down), answers, down)
      ensures Went(app, ServiceOps(app), old(objs), p, objs, p, ok, down)
    {
      var key := Key(Service, app.ns, app.name);
      ghost var start := Run(objs, ServiceOps(app), false, p);
      ReachesRefl(app, start);
      var ports := ExposedPorts(app);
      if |ports| == 0 {
        assert ServiceOps(app) == [Drop(key)] + [];
        AdvanceDrop(app, start, objs, key, [], p);
        var existing := Fetch(key);
        if existing.Down? {
          return false;
        }
        if existing.Absent? {
          assert objs - {key} == objs;
          return true;
        }
        ok := Delete(key);
        return;
      }
      ghost var want := ServiceOps(app)[0].want;
      assert ServiceOps(app) == [Apply(key, want)] + [];
      AdvanceApply(app, start, objs, key, want, [], p);
      var existing := Fetch(key);
      if existing.Down? {
        return false;
      }
      var obj := if existing.Present? then existing.obj else BLANK;
      var servicePorts := BuildServicePorts(ports);
      var serviceType := "ClusterIP";
      if app.spec.serviceType != "" {
        serviceType := app.spec.serviceType;
      }
      obj := obj.(labels := StandardLabels(app.name));
      obj := obj.(body := Ports(serviceType, SelectorLabels(app.name), servicePorts));
      ok := Commit(app, key, obj);
    }

    // ----- PVC -----

    /** What the mutate function of the PVC makes of the spec: everything on a new claim, growth only on
        an existing one. */
    method MutateClaim(disk: DiskConfig, current: Option<Body>) returns (body: Body)
      ensures body == if current.Some? && current.value.Claim?
                      then current.value.(size := Max(current.value.size, disk.sizeInGi * GI))
                      else Claim(disk.sizeInGi * GI, ["ReadWriteOnce"],
                                 if disk.storageClassName != "" then Some(disk.storageClassName) else None)
    {
      var requested := disk.sizeInGi * GI;
      if current.Some? && current.value.Claim? {
        body := current.value;
        if requested > body.size {
          body := body.(size := requested);
        }
      } else {
        body := Claim(requested, ["ReadWriteOnce"], if disk.storageClassName != "" then Some(disk.storageClassName)
                                                    else None);
      }
    }

    /** The mutate function of the PVC. */
    method MutatePvc(app: App, disk: DiskConfig, existing: Read) returns (obj: Obj)
      requires !existing.Down?
      ensures var cur := if existing.Present? then Some(existing.obj) else None;
              obj.(owner := Some(Me(app))) == Merge(app, Pvc, cur, PvcWant(app, disk))
      ensures obj.owner == if existing.Present? then existing.obj.owner else None
    {
      obj := if existing.Present? then existing.obj else BLANK;
      var body := MutateClaim(disk, if existing.Present? then Some(obj.body) else None);
      obj := obj.(labels := StandardLabels(app.name));
      if |disk.annotations| > 0 {
        obj := obj.(annotations := obj.annotations + disk.annotations);
      } else {
        assert disk.annotations == map[];
        assert obj.annotations + disk.annotations == obj.annotations;
      }
      obj := obj.(body := body);
    }

    method ReconcilePvc(app: App, ghost p: bool) returns (ok: bool)
      modifies this
      ensures Spent(old(answers), old(down), answers, down)
      ensures Went(app, PvcOps(app), old(objs), p, objs, p, ok, down)
    {
      ghost var start := Run(objs, PvcOps(app), false, p);
      ReachesRefl(app, start);
      if app.spec.disk.None? {
        return true;
      }
      var disk, key := app.spec.disk.value, PvcKey(app);
      ghost var want := PvcWant(app, disk);
      if disk.protect {
        assert PvcOps(app) == [Guarded(key, want)] + [];
        Advance(app, start, objs, Guarded(key, want), [], p, "");
        var guard := Fetch(key);
        if guard.Down? {
          return false;
        }
        if guard.Absent? {
          return true;
        }
      }
      assert Reaches(app, start, Run(objs, [Apply(key, want)] + [], false, p));
      AdvanceApply(app, start, objs, key, want, [], p);
      var existing := Fetch(key);
      if existing.Down? {
        return false;
      }
      var obj := MutatePvc(app, disk, existing);
      ok := Commit(app, key, obj);
    }

    // ----- Middlewares and Ingresses -----

    /** One Middleware. */
    method WriteMiddleware(app: App, key: Key, want: Obj, ghost start: Run, ghost rest: seq<Op>, ghost p: bool)
        returns (ok: bool)
      requires Reaches(app, start, Run(objs, [Replace(key, want)] + rest, false, p))
      modifies this
      ensures Spent(old(answers), old(down), answers, down)
      ensures if ok then Reaches(app, start, Run(objs, rest, false, p)) else Stopped(app, start, objs, down)
    {
      AdvanceReplace(app, start, objs, key, want, rest, p);
      ok := CreateOrReplace(key, want);
    }

    /** buildMiddlewareSpec, for a kind that the domain wants: the body configured for the kind, or the automatic
        redirect. */
    method BuildMiddlewareSpec(kind: MiddlewareKind, d: DomainSpec) returns (config: string)
      requires Wants(d, kind)
      ensures config == HopConfig(d, kind)
      ensures kind == RedirectScheme ==>
                config == if d.middlewares.Some? && d.middlewares.value.redirectScheme.Some?
                          then d.middlewares.value.redirectScheme.value else "scheme: https, permanent: true"
      ensures kind == IpAllow ==> d.middlewares.value.ipWhiteList == Some(config)
      ensures kind == RateLimit ==> d.middlewares.value.rateLimit == Some(config)
      ensures kind == ForwardAuth ==> d.middlewares.value.forwardAuth == Some(config)
      ensures kind == BasicAuth ==> d.middlewares.value.basicAuth == Some(config)
      ensures kind == Headers ==> d.middlewares.value.headers == Some(config)
      ensures kind == Compress ==> d.middlewares.value.compress == Some(config)
      ensures kind == Rewrite ==> d.middlewares.value.rewrite == Some(config)
    {
      var mw := d.middlewares;
      match kind
      case RedirectScheme =>
        config := if mw.Some? && mw.value.redirectScheme.Some? then mw.value.redirectScheme.value
                  else "scheme: https, permanent: true";
      case IpAllow => config := mw.value.ipWhiteList.value;
      case RateLimit => config := mw.value.rateLimit.value;
      case ForwardAuth => config := mw.value.forwardAuth.value;
      case BasicAuth => config := mw.value.basicAuth.value;
      case Headers => config := mw.value.headers.value;
      case Compress => config := mw.value.compress.value;
      case Rewrite => config := mw.value.rewrite.value;
    }

    /** The inner loop of reconcileMiddlewares: the Middlewares of one domain. */
    method WriteHops(app: App, legacy: bool, d: DomainSpec, kinds: seq<MiddlewareKind>,
                     ghost start: Run, ghost rest: seq<Op>, ghost p: bool) returns (ok: bool, names: set<string>)
      requires forall kind :: kind in kinds ==> Wants(d, kind)
      requires Reaches(app, start, Run(objs, HopWrites(app, legacy, d, kinds) + rest, false, p))
      modifies this
      ensures Spent(old(answers), old(down), answers, down)
      ensures ok ==> names == WriteNames(HopWrites(app, legacy, d, kinds)) &&
                     Reaches(app, start, Run(objs, rest, false, p))
      ensures !ok ==> Stopped(app, start, objs, down)
    {
      names := {};
      assert kinds[0..] == kinds;
      for j := 0 to |kinds|
        invariant Spent(old(answers), old(down), answers, down)
        invariant NamedSoFar(names, HopWrites(app, legacy, d, kinds[j..]), HopWrites(app, legacy, d, kinds))
        invariant Reaches(app, start, Run(objs, HopWrites(app, legacy, d, kinds[j..]) + rest, false, p))
      {
        UnfoldHops(app, legacy, d, kinds, j, rest);
        var key := HopKey(app, d, kinds[j]);
        HopNamed(app, legacy, d, kinds, j, names, key);
        names := names + {key.name};
        var labels := StandardLabels(app.name);
        var config := BuildMiddlewareSpec(kinds[j], d);
        var want := Fresh(labels, Some(Me(app)), Hop(kinds[j], legacy, config));
        ok := WriteMiddleware(app, key, want, start, HopWrites(app, legacy, d, kinds[j + 1..]) + rest, p);
        if !ok {
          return;
        }
      }
      NamedAll(names, HopWrites(app, legacy, d, kinds));
      assert [] + rest == rest;
      ok := true;
    }

    method ReconcileMiddlewares(app: App, disc: Discovery, ghost p: bool) returns (ok: bool)
      modifies this
      ensures Spent(old(answers), old(down), answers, down)
      ensures Went(app, MiddlewareOps(app, disc), old(objs), p, objs, p, ok, down)
    {
      ghost var start := Run(objs, MiddlewareOps(app, disc), false, p);
      ReachesRefl(app, start);
      if disc.middlewares.None? {
        return true;
      }
      var ds, legacy := app.spec.domains, disc.middlewares.value;
      ghost var prune := [Prune(Middleware, WriteNames(MiddlewareWrites(app, legacy, ds)))];
      var desired: set<string> := {};
      for i := 0 to |ds|
        invariant Spent(old(answers), old(down), answers, down)
        invariant desired + WriteNames(MiddlewareWrites(app, legacy, ds[i..])) ==
                    WriteNames(MiddlewareWrites(app, legacy, ds))
        invariant Reaches(app, start, Run(objs, MiddlewareWrites(app, legacy, ds[i..]) + prune, false, p))
      {
        var kinds := EnabledMiddlewareKinds(ds[i]);
        KindsAreWanted(ds[i]);
        UnfoldMiddlewares(app, legacy, ds, i, prune);
        UnfoldMiddlewareNames(app, legacy, ds, i);
        var names;
        ok, names := WriteHops(app, legacy, ds[i], kinds, start, MiddlewareWrites(app, legacy, ds[i + 1..]) + prune, p);
        if !ok {
          return;
        }
        desired := desired + names;
      }
      ghost var s := objs;
      ok := DeleteStale(app, Middleware, desired, p);
      assert [] + prune == prune + [];
      WentThen(app, start, prune, [], s, p, objs, p, ok, down);
    }

    /** The mutate function of one Ingress. */
    method MutateIngress(app: App, d: DomainSpec, existing: Read) returns (obj: Obj)
      requires !existing.Down?
      ensures var cur := if existing.Present? then Some(existing.obj) else None;
              obj.(owner := Some(Me(app))) == Merge(app, Ingress, cur, IngressWant(app, d))
      ensures obj.owner == if existing.Present? then existing.obj.owner else None
    {
      obj := if existing.Present? then existing.obj else BLANK;
      obj := obj.(labels := StandardLabels(app.name));
      var annotations := BuildAnnotations(app, d);
      obj := obj.(annotations := annotations, nudge := None);
      var class' := if app.spec.ingressClass != "" then Some(app.spec.ingressClass) else None;
      var tls := None;
      if d.tls {
        var secretName := d.secretName;
        if secretName == "" {
          secretName := TlsSecretName(app.name, d.name);
        }
        tls := Some(Tls(d.name, secretName));
      }
      var portName := if d.portName == "" then "http" else d.portName;
      var path := if d.path == "" then "/" else d.path;
      obj := obj.(body := Route(class', tls, d.name, path, app.name, portName));
    }

    /** The Ingress of domain i. */
    method WriteIngress(app: App, i: nat, ghost start: Run, ghost prune: seq<Op>, ghost p: bool) returns (ok: bool)
      requires i < |app.spec.domains|
      requires Reaches(app, start, Run(objs, IngressWrites(app, app.spec.domains[i..]) + prune, false, p))
      modifies this
      ensures Spent(old(answers), old(down), answers, down)
      ensures if ok then Reaches(app, start, Run(objs, IngressWrites(app, app.spec.domains[i + 1..]) + prune, false, p))
              else Stopped(app, start, objs, down)
    {
      UnfoldIngresses(app, app.spec.domains, i, prune);
      var d := app.spec.domains[i];
      var key := IngressKey(app, d);
      AdvanceApply(app, start, objs, key, IngressWant(app, d), IngressWrites(app, app.spec.domains[i + 1..]) + prune,
                   p);
      var existing := Fetch(key);
      if existing.Down? {
        return false;
      }
      var obj := MutateIngress(app, d, existing);
      ok := Commit(app, key, obj);
    }

    /** The loop of reconcileIngress up to pruning. */
    method WriteIngresses(app: App, ghost start: Run, ghost prune: seq<Op>, ghost p: bool)
        returns (ok: bool, desired: set<string>)
      requires Reaches(app, start, Run(objs, IngressWrites(app, app.spec.domains) + prune, false, p))
      modifies this
      ensures Spent(old(answers), old(down), answers, down)
      ensures ok ==> desired == WriteNames(IngressWrites(app, app.spec.domains)) &&
                     Reaches(app, start, Run(objs, prune, false, p))
      ensures !ok ==> Stopped(app, start, objs, down)
    {
      var ds := app.spec.domains;
      desired := {};
      assert ds[0..] == ds;
      for i := 0 to |ds|
        invariant Spent(old(answers), old(down), answers, down)
        invariant NamedSoFar(desired, IngressWrites(app, ds[i..]), IngressWrites(app, ds))
        invariant Reaches(app, start, Run(objs, IngressWrites(app, ds[i..]) + prune, false, p))
      {
        var name := IngressKey(app, ds[i]).name;
        IngressNamed(app, ds, i, desired, name);
        desired := desired + {name};
        ok := WriteIngress(app, i, start, prune, p);
        if !ok {
          return;
        }
      }
      NamedAll(desired, IngressWrites(app, ds));
      assert [] + prune == prune;
      ok := true;
    }

    method ReconcileIngress(app: App, ghost p: bool) returns (ok: bool)
      modifies this
      ensures Spent(old(answers), old(down), answers, down)
      ensures Went(app, IngressOps(app), old(objs), p, objs, p, ok, down)
    {
      ghost var start := Run(objs, IngressOps(app), false, p);
      ghost var prune := [Prune(Ingress, WriteNames(IngressWrites(app, app.spec.domains)))];
      ReachesRefl(app, start);
      var desired;
      ok, desired := WriteIngresses(app, start, prune, p);
      if !ok {
        return;
      }
      ghost var s := objs;
      ok := DeleteStale(app, Ingress, desired, p);
      assert prune + [] == prune;
      WentThen(app, start, prune, [], s, p, objs, p, ok, down);
    }

    // ----- HPA and ServiceMonitor -----

    method ReconcileHpa(app: App, ghost p: bool) returns (ok: bool)
      modifies this
      ensures Spent(old(answers), old(down), answers, down)
      ensures Went(app, HpaOps(app), old(objs), p, objs, p, ok, down)
    {
      var key := Key(Hpa, app.ns, app.name);
      ghost var start := Run(objs, HpaOps(app), false, p);
      ReachesRefl(app, start);
      if app.spec.autoscaling.None? || !app.spec.autoscaling.value.enabled {
        assert HpaOps(app) == [Drop(key)] + [];
        AdvanceDrop(app, start, objs, key, [], p);
        ok := Delete(key);
        return;
      }
      ghost var want := HpaOps(app)[0].want;
      assert HpaOps(app) == [Apply(key, want)] + [];
      AdvanceApply(app, start, objs, key, want, [], p);
      var existing := Fetch(key);
      if existing.Down? {
        return false;
      }
      var obj := if existing.Present? then existing.obj else BLANK;
      obj := obj.(labels := StandardLabels(app.name));
      obj := obj.(body := Scaler(app.name, app.spec.autoscaling.value.limits));
      ok := Commit(app, key, obj);
    }

    method ReconcileServiceMonitor(app: App, disc: Discovery, ghost p: bool) returns (ok: bool)
      modifies this
      ensures Spent(old(answers), old(down), answers, down)
      ensures Went(app, MonitorOps(app, disc), old(objs), p, objs, p, ok, down)
    {
      var key := MonitorKey(app);
      ghost var start := Run(objs, MonitorOps(app, disc), false, p);
      ReachesRefl(app, start);
      if !disc.serviceMonitors {
        return true;
      }
      var endpoints := BuildEndpoints(app);
      if |endpoints| == 0 {
        assert MonitorOps(app, disc) == [Drop(key)] + [];
        AdvanceDrop(app, start, objs, key, [], p);
        var existing := Fetch(key);
        if existing.Down? {
          return false;
        }
        if existing.Absent? {
          assert objs - {key} == objs;
          return true;
        }
        ok := Delete(key);
        return;
      }
      var labels := BuildMonitorLabels(app, StandardLabels(app.name));
      var want := Fresh(labels, Some(Me(app)), Monitor(app.name, endpoints, app.ns));
      assert MonitorOps(app, disc) == [Replace(key, want)] + [];
      AdvanceReplace(app, start, objs, key, want, [], p);
      ok := CreateOrReplace(key, want);
    }

    // ----- reconcileAll -----

    /** The steps in order, ending at the first error. A run all of whose calls are answered fails only where some
        operation of the program is refused. */
    method ReconcileAll(app: App, disc: Discovery, now: int) returns (ok: bool, pending: bool)
      modifies this
      ensures Spent(old(answers), old(down), answers, down)
      ensures Went(app, Program(app, disc, now), old(objs), false, objs, pending, ok, down)
      ensures ok ==> RunAll(app, Program(app, disc, now), old(objs)) == Outcome(objs, true)
      ensures !ok && !down ==> RunAll(app, Program(app, disc, now), old(objs)) == Outcome(objs, false)
      ensures app.spec.paused ==> ok
      ensures pending <==> ok && !app.spec.paused && AnyPending(RetryOps(app, disc, now), objs)
    {
      ghost var start := Run(objs, Program(app, disc, now), false, false);
      ReachesRefl(app, start);
      pending := false;
      if app.spec.paused {
        ok := true;
        WentMeans(app, start.ops, old(objs), false, objs, pending, ok, down);
        return;
      }
      ok := ConfigSteps(app, disc, now, start);
      if ok {
        ok, pending := ExternalSteps(app, disc, now, start);
      }
      ghost var s := objs;
      ghost var mid := Run(s, Remaining(app, disc, now, 5), false, pending);
      if ok {
        ReachesRefl(app, mid);
        ok := OtherSteps(app, disc, now, mid, pending);
        RunThrough(app, start, mid, Run(objs, [], false, pending), ok, down);
        if ok {
          StillPendingAtEnd(app, disc, now, s, pending, objs);
        }
      }
      pending := ok && pending;
      WentMeans(app, start.ops, old(objs), false, objs, pending, ok, down);
    }

    /** The steps that do not concern ESO objects. */
    method OtherSteps(app: App, disc: Discovery, now: int, ghost start: Run, ghost p: bool) returns (ok: bool)
      requires Reaches(app, start, Run(objs, Remaining(app, disc, now, 5), false, p))
      modifies this
      ensures Spent(old(answers), old(down), answers, down)
      ensures if ok then Reaches(app, start, Run(objs, [], false, p)) else Stopped(app, start, objs, down)
    {
      ok := WorkloadSteps(app, disc, now, start, p);
      if ok {
        ok := DiskStep(app, disc, now, start, p);
      }
      if ok {
        ok := MiddlewareStep(app, disc, now, start, p);
      }
      if ok {
        ok := IngressStep(app, disc, now, start, p);
      }
      if ok {
        ok := ScalingStep(app, disc, now, start, p);
      }
      if ok {
        ok := MonitoringStep(app, disc, now, start, p);
      }
    }

    method ConfigSteps(app: App, disc: Discovery, now: int, ghost start: Run) returns (ok: bool)
      requires Reaches(app, start, Run(objs, Remaining(app, disc, now, 0), false, false))
      modifies this
      ensures Spent(old(answers), old(down), answers, down)
      ensures if ok then Reaches(app, start, Run(objs, Remaining(app, disc, now, 2), false, false))
              else Stopped(app, start, objs, down)
    {
      ghost var s := objs;
      ok := ReconcileConfigMaps(app, false);
      StepDone(app, disc, now, 0, start, s, false, objs, false, ok, down);
      if !ok {
        return;
      }
      s := objs;
      ok := ReconcileSecrets(app, false);
      StepDone(app, disc, now, 1, start, s, false, objs, false, ok, down);
    }

    method ExternalSteps(app: App, disc: Discovery, now: int, ghost start: Run) returns (ok: bool, pending: bool)
      requires Reaches(app, start, Run(objs, Remaining(app, disc, now, 2), false, false))
      modifies this
      ensures Spent(old(answers), old(down), answers, down)
      ensures if ok then Reaches(app, start, Run(objs, Remaining(app, disc, now, 5), false, pending))
              else Stopped(app, start, objs, down)
      ensures ok ==> (pending <==> AnyPending(RetryOps(app, disc, now), objs))
    {
      pending := false;
      ghost var s := objs;
      ok := ReconcileSecretStore(app, disc, false);
      StepDone(app, disc, now, 2, start, s, false, objs, false, ok, down);
      if !ok {
        return;
      }
      s := objs;
      ok := ReconcileExternalSecrets(app, disc, false);
      StepDone(app, disc, now, 3, start, s, false, objs, false, ok, down);
      if !ok {
        return;
      }
      s := objs;
      ok, pending := RetryFailedExternalSecrets(app, disc, now);
      StepDone(app, disc, now, 4, start, s, false, objs, pending, ok, down);
      if ok {
        RetryReports(app, RetryOps(app, disc, now), s, objs, pending);
      }
    }

    method WorkloadSteps(app: App, disc: Discovery, now: int, ghost start: Run, ghost p: bool) returns (ok: bool)
      requires Reaches(app, start, Run(objs, Remaining(app, disc, now, 5), false, p))
      modifies this
      ensures Spent(old(answers), old(down), answers, down)
      ensures if ok then Reaches(app, start, Run(objs, Remaining(app, disc, now, 7), false, p))
              else Stopped(app, start, objs, down)
    {
      ghost var s := objs;
      ok := ReconcileDeployment(app, p);
      StepDone(app, disc, now, 5, start, s, p, objs, p, ok, down);
      if !ok {
        return;
      }
      s := objs;
      ok := ReconcileService(app, p);
      StepDone(app, disc, now, 6, start, s, p, objs, p, ok, down);
    }

    method DiskStep(app: App, disc: Discovery, now: int, ghost start: Run, ghost p: bool) returns (ok: bool)
      requires Reaches(app, start, Run(objs, Remaining(app, disc, now, 7), false, p))
      modifies this
      ensures Spent(old(answers), old(down), answers, down)
      ensures if ok then Reaches(app, start, Run(objs, Remaining(app, disc, now, 8), false, p))
              else Stopped(app, start, objs, down)
    {
      ghost var s := objs;
      ok := true;
      if app.spec.disk.Some? {
        ok := ReconcilePvc(app, p);
      } else {
        ReachesRefl(app, Run(objs, [], false, p));
      }
      StepDone(app, disc, now, 7, start, s, p, objs, p, ok, down);
    }

    method MiddlewareStep(app: App, disc: Discovery, now: int, ghost start: Run, ghost p: bool) returns (ok: bool)
      requires Reaches(app, start, Run(objs, Remaining(app, disc, now, 8), false, p))
      modifies this
      ensures Spent(old(answers), old(down), answers, down)
      ensures if ok then Reaches(app, start, Run(objs, Remaining(app, disc, now, 9), false, p))
              else Stopped(app, start, objs, down)
    {
      ghost var s := objs;
      ok := ReconcileMiddlewares(app, disc, p);
      StepDone(app, disc, now, 8, start, s, p, objs, p, ok, down);
    }

    method IngressStep(app: App, disc: Discovery, now: int, ghost start: Run, ghost p: bool) returns (ok: bool)
      requires Reaches(app, start, Run(objs, Remaining(app, disc, now, 9), false, p))
      modifies this
      ensures Spent(old(answers), old(down), answers, down)
      ensures if ok then Reaches(app, start, Run(objs, Remaining(app, disc, now, 10), false, p))
              else Stopped(app, start, objs, down)
    {
      ghost var s := objs;
      ok := ReconcileIngress(app, p);
      IngressDone(app, disc, now, start, s, p, objs, ok, down);
    }

    method ScalingStep(app: App, disc: Discovery, now: int, ghost start: Run, ghost p: bool) returns (ok: bool)
      requires Reaches(app, start, Run(objs, Remaining(app, disc, now, 10), false, p))
      modifies this
      ensures Spent(old(answers), old(down), answers, down)
      ensures if ok then Reaches(app, start, Run(objs, Remaining(app, disc, now, 11), false, p))
              else Stopped(app, start, objs, down)
    {
      ghost var s := objs;
      ok := ReconcileHpa(app, p);
      StepDone(app, disc, now, 10, start, s, p, objs, p, ok, down);
    }

    method MonitoringStep(app: App, disc: Discovery, now: int, ghost start: Run, ghost p: bool) returns (ok: bool)
      requires Reaches(app, start, Run(objs, Remaining(app, disc, now, 11), false, p))
      modifies this
      ensures Spent(old(answers), old(down), answers, down)
      ensures if ok then Reaches(app, start, Run(objs, [], false, p)) else Stopped(app, start, objs, down)
    {
      ghost var s := objs;
      ok := ReconcileServiceMonitor(app, disc, p);
      StepDone(app, disc, now, 11, start, s, p, objs, p, ok, down);
    }
  }

  lemma {:induction false} KindsAreWanted(d: DomainSpec)
    ensures forall kind :: kind in EnabledKinds(d) ==> Wants(d, kind)
  {
    EnabledKindsInChainOrder(d);
  }

  /** buildSecretStore: the configured Vault provider with its defaults. */
  method BuildSecretStore(app: App, store: SecretStoreSpec) returns (body: Body)
    ensures body == StoreBody(app, store)
  {
    var sa := if AppScoped(store) then app.name else app.ns;
    var path, version, mountPath, role :=
          store.vault.path, store.vault.version, store.vault.authMountPath, store.vault.role;
    if path == "" {
      path := "secret";
    }
    if version == "" {
      version := "v2";
    }
    if mountPath == "" {
      mountPath := "kubernetes";
    }
    if role == "" {
      role := app.ns + "-" + sa;
    }
    body := Vault(store.vault.server, path, version, mountPath, role, sa);
  }

  /** One more name of the external secrets: its section is there if its Secret is. */
  lemma {:induction false} SyncedSnoc(app: App, s: Objs, names: seq<Item<string>>, i: nat)
    requires i < |names|
    ensures var k := SyncedKey(app, names[i].key);
            var before, after := SyncedSections(app, s, names[..i]), SyncedSections(app, s, names[..i + 1]);
            if k in s
            then after != [] && Bytes(AllLines(after)) ==
                   Bytes(AllLines(before)) + Bytes(["es:" + names[i].key] + Lines(Listed(DataOf(s[k]))))
            else after == before
  {
    assert names[..i + 1][..i] == names[..i];
    var k := SyncedKey(app, names[i].key);
    if k in s {
      StreamSnoc(SyncedSections(app, s, names[..i]), Section("es:" + names[i].key, Listed(DataOf(s[k]))));
    }
  }

  lemma {:induction false} NamesOfCons(op: Op, ops: seq<Op>)
    requires op.Apply? || op.Replace?
    ensures WriteNames([op] + ops) == {op.key.name} + WriteNames(ops)
  {
    assert ([op] + ops)[1..] == ops;
  }

  lemma {:induction false} UnfoldConfigMaps(app: App, cms: seq<ConfigMapMount>, i: nat, rest: seq<Op>)
    requires i < |cms|
    ensures ConfigMapWrites(app, cms[i..]) == [ConfigMapWrite(app, cms[i])] + ConfigMapWrites(app, cms[i + 1..])
    ensures ConfigMapWrites(app, cms[i..]) + rest ==
              [ConfigMapWrite(app, cms[i])] + (ConfigMapWrites(app, cms[i + 1..]) + rest)
    ensures WriteNames(ConfigMapWrites(app, cms[i..])) ==
              {Child(app.name, cms[i].name)} + WriteNames(ConfigMapWrites(app, cms[i + 1..]))
  {
    assert cms[i..][1..] == cms[i + 1..];
    Regrouped([ConfigMapWrite(app, cms[i])], ConfigMapWrites(app, cms[i + 1..]), rest);
    NamesOfCons(ConfigMapWrite(app, cms[i]), ConfigMapWrites(app, cms[i + 1..]));
  }

  lemma {:induction false} UnfoldSecrets(app: App, secs: seq<SecretMount>, i: nat, rest: seq<Op>)
    requires i < |secs|
    ensures if secs[i].secretRef != "" then SecretWrites(app, secs[i..]) == SecretWrites(app, secs[i + 1..])
            else SecretWrites(app, secs[i..]) + rest ==
                   [SecretWrite(app, secs[i])] + (SecretWrites(app, secs[i + 1..]) + rest) &&
                 WriteNames(SecretWrites(app, secs[i..])) ==
                   {Child(app.name, secs[i].name)} + WriteNames(SecretWrites(app, secs[i + 1..]))
  {
    assert secs[i..][1..] == secs[i + 1..];
    if secs[i].secretRef != "" {
      assert [] + SecretWrites(app, secs[i + 1..]) == SecretWrites(app, secs[i + 1..]);
    } else {
      Regrouped([SecretWrite(app, secs[i])], SecretWrites(app, secs[i + 1..]), rest);
      NamesOfCons(SecretWrite(app, secs[i]), SecretWrites(app, secs[i + 1..]));
    }
  }

  lemma {:induction false} UnfoldExternals(app: App, ess: seq<ExternalSecretMount>, i: nat, rest: seq<Op>)
    requires i < |ess|
    ensures ExternalWrites(app, ess[i..]) + rest ==
              [ExternalWrite(app, ess[i])] + (ExternalWrites(app, ess[i + 1..]) + rest)
    ensures WriteNames(ExternalWrites(app, ess[i..])) ==
              {Child(app.name, ess[i].name)} + WriteNames(ExternalWrites(app, ess[i + 1..]))
  {
    assert ess[i..][1..] == ess[i + 1..];
    Regrouped([ExternalWrite(app, ess[i])], ExternalWrites(app, ess[i + 1..]), rest);
    NamesOfCons(ExternalWrite(app, ess[i]), ExternalWrites(app, ess[i + 1..]));
  }

  /** The names collected so far, with those still to come, are all names. */
  predicate NamedSoFar(names: set<string>, left: seq<Op>, all: seq<Op>) {
    names + WriteNames(left) == WriteNames(all)
  }

  lemma {:induction false} NamedAll(names: set<string>, all: seq<Op>)
    ensures NamedSoFar(names, [], all) ==> names == WriteNames(all)
  {
  }

  lemma {:induction false} NamedNext(names: set<string>, op: Op, left: seq<Op>, all: seq<Op>)
    requires op.Apply? || op.Replace?
    requires NamedSoFar(names, [op] + left, all)
    ensures NamedSoFar(names + {op.key.name}, left, all)
  {
    NamesOfCons(op, left);
  }

  lemma {:induction false} IngressesCons(app: App, ds: seq<DomainSpec>, i: nat)
    requires i < |ds|
    ensures IngressWrites(app, ds[i..]) == [IngressWrite(app, ds[i])] + IngressWrites(app, ds[i + 1..])
  {
  }

  lemma {:induction false} HopsFrom(app: App, legacy: bool, d: DomainSpec, kinds: seq<MiddlewareKind>, j: nat)
    requires j <= |kinds|
    ensures HopWrites(app, legacy, d, kinds[j..]) == HopWrites(app, legacy, d, kinds)[j..]
  {
  }

  lemma {:induction false} HopsCons(app: App, legacy: bool, d: DomainSpec, kinds: seq<MiddlewareKind>, j: nat)
    requires j < |kinds|
    ensures HopWrites(app, legacy, d, kinds[j..]) ==
              [HopWrite(app, legacy, d, kinds[j])] + HopWrites(app, legacy, d, kinds[j + 1..])
  {
    HopsFrom(app, legacy, d, kinds, j);
    HopsFrom(app, legacy, d, kinds, j + 1);
    var ops := HopWrites(app, legacy, d, kinds);
    assert ops[j] == HopWrite(app, legacy, d, kinds[j]);
    assert ops[j..] == [ops[j]] + ops[j + 1..];
  }

  lemma {:induction false} IngressNamed(app: App, ds: seq<DomainSpec>, i: nat, names: set<string>, name: string)
    requires i < |ds| && name == IngressKey(app, ds[i]).name
    requires NamedSoFar(names, IngressWrites(app, ds[i..]), IngressWrites(app, ds))
    ensures NamedSoFar(names + {name}, IngressWrites(app, ds[i + 1..]), IngressWrites(app, ds))
  {
    IngressesCons(app, ds, i);
    NamedNext(names, IngressWrite(app, ds[i]), IngressWrites(app, ds[i + 1..]), IngressWrites(app, ds));
  }

  lemma {:induction false} HopNamed(app: App, legacy: bool, d: DomainSpec, kinds: seq<MiddlewareKind>, j: nat,
                                    names: set<string>, key: Key)
    requires j < |kinds| && key == HopKey(app, d, kinds[j])
    requires NamedSoFar(names, HopWrites(app, legacy, d, kinds[j..]), HopWrites(app, legacy, d, kinds))
    ensures NamedSoFar(names + {key.name}, HopWrites(app, legacy, d, kinds[j + 1..]), HopWrites(app, legacy, d, kinds))
  {
    HopsCons(app, legacy, d, kinds, j);
    NamedNext(names, HopWrite(app, legacy, d, kinds[j]), HopWrites(app, legacy, d, kinds[j + 1..]),
              HopWrites(app, legacy, d, kinds));
  }

  lemma {:induction false} UnfoldHops(app: App, legacy: bool, d: DomainSpec, kinds: seq<MiddlewareKind>, j: nat,
                                      rest: seq<Op>)
    requires j < |kinds|
    ensures HopWrites(app, legacy, d, kinds[j..]) + rest
            == [HopWrite(app, legacy, d, kinds[j])] + (HopWrites(app, legacy, d, kinds[j + 1..]) + rest)
  {
    HopsCons(app, legacy, d, kinds, j);
    Regrouped([HopWrite(app, legacy, d, kinds[j])], HopWrites(app, legacy, d, kinds[j + 1..]), rest);
  }

  lemma {:induction false} UnfoldMiddlewares(app: App, legacy: bool, ds: seq<DomainSpec>, i: nat, rest: seq<Op>)
    requires i < |ds|
    ensures MiddlewareWrites(app, legacy, ds[i..]) + rest
            == HopWrites(app, legacy, ds[i], EnabledKinds(ds[i])) + (MiddlewareWrites(app, legacy, ds[i + 1..]) + rest)
  {
    assert ds[i..][1..] == ds[i + 1..];
    Regrouped(HopWrites(app, legacy, ds[i], EnabledKinds(ds[i])), MiddlewareWrites(app, legacy, ds[i + 1..]), rest);
  }

  lemma {:induction false} UnfoldMiddlewareNames(app: App, legacy: bool, ds: seq<DomainSpec>, i: nat)
    requires i < |ds|
    ensures WriteNames(MiddlewareWrites(app, legacy, ds[i..]))
            == WriteNames(HopWrites(app, legacy, ds[i], EnabledKinds(ds[i]))) +
               WriteNames(MiddlewareWrites(app, legacy, ds[i + 1..]))
  {
    assert ds[i..][1..] == ds[i + 1..];
    WriteNamesAppend(HopWrites(app, legacy, ds[i], EnabledKinds(ds[i])), MiddlewareWrites(app, legacy, ds[i + 1..]));
  }

  lemma {:induction false} UnfoldIngresses(app: App, ds: seq<DomainSpec>, i: nat, rest: seq<Op>)
    requires i < |ds|
    ensures IngressWrites(app, ds[i..]) + rest == [IngressWrite(app, ds[i])] + (IngressWrites(app, ds[i + 1..]) + rest)
  {
    IngressesCons(app, ds, i);
    Regrouped([IngressWrite(app, ds[i])], IngressWrites(app, ds[i + 1..]), rest);
  }

  /** Some object that these nudges are about is there and not Ready. */
  ghost predicate AnyPending(nudges: seq<Op>, s: Objs) {
    exists op :: op in nudges && op.Nudge? && StillPending(Get(s, op.key))
  }

  /** While nudging, the pending flag counts exactly the objects met so far that are not Ready, and
      nudging changes no readiness. */
  lemma {:induction false} NudgesReport(app: App, nudges: seq<Op>, s: Objs, picks: seq<string>)
    requires forall op :: op in nudges ==> op.Nudge?
    ensures var r := Steps(app, Run(s, nudges, false, false), picks);
            (forall op :: op in r.ops ==> op.Nudge?) &&
            (forall k :: StillPending(Get(r.objs, k)) <==> StillPending(Get(s, k))) &&
            (r.pending || AnyPending(r.ops, s) <==> AnyPending(nudges, s)) &&
            (r.ops == [] ==> (r.pending <==> AnyPending(nudges, r.objs)))
  {
    if picks != [] {
      var m, pick := Steps(app, Run(s, nudges, false, false), picks[..|picks| - 1]), picks[|picks| - 1];
      NudgesReport(app, nudges, s, picks[..|picks| - 1]);
      if m.ops != [] {
        assert m.ops == [m.ops[0]] + m.ops[1..];
        assert m.ops[0].Nudge?;
        assert AnyPending(m.ops, s) <==> StillPending(Get(s, m.ops[0].key)) || AnyPending(m.ops[1..], s);
      }
    }
  }

  lemma {:induction false} RetryReports(app: App, nudges: seq<Op>, s: Objs, t: Objs, pending: bool)
    requires forall op :: op in nudges ==> op.Nudge?
    requires Reaches(app, Run(s, nudges, false, false), Run(t, [], false, pending))
    ensures pending <==> AnyPending(nudges, t)
  {
    var picks :| Steps(app, Run(s, nudges, false, false), picks) == Run(t, [], false, pending);
    NudgesReport(app, nudges, s, picks);
  }

  lemma {:induction false} RunThrough(app: App, start: Run, mid: Run, end: Run, ok: bool, down: bool)
    requires Reaches(app, start, mid)
    requires if ok then Reaches(app, mid, end) else Stopped(app, mid, end.objs, down)
    ensures if ok then Reaches(app, start, end) else Stopped(app, start, end.objs, down)
  {
    if ok {
      ReachesTrans(app, start, mid, end);
    } else {
      var r :| Reaches(app, mid, r) && r.objs == end.objs && (r.failed || down);
      ReachesTrans(app, start, mid, r);
    }
  }

  lemma {:induction false} RemainingAvoids(app: App, disc: Discovery, now: int, kind: Kind)
    requires kind in {SecretStore, ExternalSecret}
    ensures Avoids(Remaining(app, disc, now, 5), kind)
  {
    var segs := Segments(app, disc, now)[5..];
    forall i | 0 <= i < |segs|
      ensures Avoids(segs[i], kind)
    {
      SegmentsAreProper(app, disc, now, i + 5);
    }
    AvoidsFlatten(segs, kind);
  }

  /** No step after the retry step touches what it looked at. */
  lemma {:induction false} StillPendingAtEnd(app: App, disc: Discovery, now: int, s: Objs, p: bool, t: Objs)
    requires Reaches(app, Run(s, Remaining(app, disc, now, 5), false, p), Run(t, [], false, p))
    ensures AnyPending(RetryOps(app, disc, now), t) <==> AnyPending(RetryOps(app, disc, now), s)
  {
    var ops := Remaining(app, disc, now, 5);
    CompleteRun(app, s, ops, p, Run(t, [], false, p));
    forall op | op in RetryOps(app, disc, now)
      ensures Get(t, op.key) == Get(s, op.key)
    {
      assert Proper(app, RETRY_STEP, op);
      RemainingAvoids(app, disc, now, op.key.kind);
      UntouchedSlot(app, ops, s, op.key);
    }
  }

  /** What is left of a reconcile from step i on. */
  ghost function Remaining(app: App, disc: Discovery, now: int, i: nat): seq<Op>
    requires i <= STEPS
  {
    Flatten(Segments(app, disc, now)[i..])
  }

  /** A step's operations are done; the rest of the reconcile remains. */
  lemma {:induction false} StepDone(app: App, disc: Discovery, now: int, i: nat, start: Run, s: Objs, p: bool, t: Objs,
                                    q: bool, ok: bool, down: bool)
    requires i < STEPS
    requires Reaches(app, start, Run(s, Remaining(app, disc, now, i), false, p))
    requires Went(app, StepOps(app, disc, now, i), s, p, t, q, ok, down)
    ensures if ok then Reaches(app, start, Run(t, Remaining(app, disc, now, i + 1), false, q))
            else Stopped(app, start, t, down)
    ensures Remaining(app, disc, now, STEPS) == []
  {
    var segs := Segments(app, disc, now);
    assert segs[i..][1..] == segs[i + 1..] && segs[i..][0] == StepOps(app, disc, now, i);
    WentThen(app, start, StepOps(app, disc, now, i), Remaining(app, disc, now, i + 1), s, p, t, q, ok, down);
  }

  lemma {:induction false} IngressDone(app: App, disc: Discovery, now: int, start: Run, s: Objs, p: bool, t: Objs,
                                       ok: bool, down: bool)
    requires Reaches(app, start, Run(s, Remaining(app, disc, now, 9), false, p))
    requires Went(app, IngressOps(app), s, p, t, p, ok, down)
    ensures if ok then Reaches(app, start, Run(t, Remaining(app, disc, now, 10), false, p))
            else Stopped(app, start, t, down)
  {
    IngressStepOps(app, disc, now);
    StepDone(app, disc, now, 9, start, s, p, t, p, ok, down);
  }

  lemma {:induction false} ListedNames(app: App, s: Objs, kind: Kind, keep: set<string>)
    ensures forall n :: n in ToPrune(app, s, kind, keep) ==> n !in keep && Managed(app, Get(s, Key(kind, app.ns, n)))
  {
    forall n | n in ToPrune(app, s, kind, keep)
      ensures n !in keep && Managed(app, Get(s, Key(kind, app.ns, n)))
    {
      var j :| j in s && j.kind == kind && j.ns == app.ns && Managed(app, Some(s[j])) && j.name !in keep && j.name == n;
      assert j == Key(kind, app.ns, n);
    }
  }
}
