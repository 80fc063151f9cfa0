/**
 The update protocol of internal/apiserver/handlers.go: each PUT reads the stored AppDefinition, checks
 the request against it and then writes on the condition that the version is still the one it read.
 Calls of many clients, status writes of the operator and edits by others come in any order.

 A version is a number that the API server takes anew for every effective write; writing what is
 already stored is no effective write.
 */
module ApiServer {
  import opened Common
  import opened Spec
  import opened Redaction

  datatype Id = Id(ns: string, name: string)

  datatype Stored = Stored(rv: nat, spec: AppSpec, status: string)

  datatype Db = Db(objs: map<Id, Stored>, next: nat)

  /** The body of a PUT and the names in its URL; rv is None when metadata.resourceVersion is empty. */
  datatype PutRequest = PutRequest(id: Id, metaNs: string, metaName: string, rv: Option<nat>, spec: AppSpec)

  const OK := 200
  const CREATED := 201
  const NO_CONTENT := 204
  const BAD_REQUEST := 400
  const NOT_FOUND := 404
  const CONFLICT := 409
  const UNPROCESSABLE := 422
  const PRECONDITION_REQUIRED := 428

  /** A PUT handler: about to read, about to write what it admitted over the version it read, or done. */
  datatype Put =
    | Reading(req: PutRequest)
    | Writing(req: PutRequest, existing: Stored, spec: AppSpec)
    | Answered(req: PutRequest, code: nat)

  // ----- The two calls of a PUT -----

  function OnTheWire(spec: AppSpec): AppSpec {
    spec.(secrets := Wire(spec.secrets))
  }

  /** What the handler does with the object it read. */
  function Admit(req: PutRequest, read: Option<Stored>): Put {
    if read.None? then Answered(req, NOT_FOUND)
    else if req.metaName != "" && req.metaName != req.id.name then Answered(req, BAD_REQUEST)
    else if req.metaNs != "" && req.metaNs != req.id.ns then Answered(req, BAD_REQUEST)
    else if req.rv.None? then Answered(req, PRECONDITION_REQUIRED)
    else if req.rv.value != read.value.rv then Answered(req, CONFLICT)
    else if CarriesData(req.spec.secrets) then Answered(req, UNPROCESSABLE)
    else
      var secrets := Preserved(read.value.spec.secrets, req.spec.secrets);
      if LacksSource(secrets) then Answered(req, UNPROCESSABLE)
      else Writing(req, read.value, req.spec.(secrets := secrets))
  }

  function Read(db: Db, id: Id): Option<Stored> {
    if id in db.objs then Some(db.objs[id]) else None
  }

  /** Replaces the spec and takes a new version, unless nothing would change. */
  function Replace(db: Db, id: Id, spec: AppSpec): Db
    requires id in db.objs
  {
    if OnTheWire(spec) == db.objs[id].spec then db
    else Db(db.objs[id := Stored(db.next, OnTheWire(spec), db.objs[id].status)], db.next + 1)
  }

  /** The API server's conditional update. */
  function CompareAndSwap(db: Db, id: Id, rv: nat, spec: AppSpec): (Db, nat) {
    if id !in db.objs then (db, NOT_FOUND)
    else if db.objs[id].rv != rv then (db, CONFLICT)
    else (Replace(db, id, spec), OK)
  }

  /** One call of a PUT handler. */
  function Advance(db: Db, put: Put): (Db, Put) {
    match put
    case Reading(req) => (db, Admit(req, Read(db, req.id)))
    case Writing(req, existing, spec) =>
      var r := CompareAndSwap(db, req.id, existing.rv, spec);
      (r.0, Answered(req, r.1))
    case Answered(_, _) => (db, put)
  }

  // ----- Which requests are admitted -----

  /** The names in the body of a request are empty or those of its URL. */
  predicate NamesMatch(req: PutRequest) {
    (req.metaName == "" || req.metaName == req.id.name) && (req.metaNs == "" || req.metaNs == req.id.ns)
  }

  /** Every entry refers to a Secret, or inline data is stored under its name. */
  predicate Sourced(existing: seq<SecretMount>, update: seq<SecretMount>) {
    forall i :: 0 <= i < |update| ==>
      update[i].secretRef != "" ||
      exists j :: 0 <= j < |existing| && existing[j].name == update[i].name && existing[j].secretRef == "" &&
                  existing[j].data.Some?
  }

  /** No entry of the request carries data. */
  predicate Dataless(secs: seq<SecretMount>) {
    forall i :: 0 <= i < |secs| ==> secs[i].data.None?
  }

  /** The requests that a PUT goes on to write. */
  predicate Acceptable(db: Db, req: PutRequest) {
    req.id in db.objs && NamesMatch(req) && req.rv == Some(db.objs[req.id].rv) && Dataless(req.spec.secrets) &&
    Sourced(db.objs[req.id].spec.secrets, req.spec.secrets)
  }

  /** The code of a refusal, by the first condition that fails. */
  predicate RefusedWith(db: Db, req: PutRequest, code: nat) {
    if req.id !in db.objs then code == 404
    else if !NamesMatch(req) then code == 400
    else if req.rv == None then code == 428
    else if req.rv.value != db.objs[req.id].rv then code == 409
    else !(Dataless(req.spec.secrets) && Sourced(db.objs[req.id].spec.secrets, req.spec.secrets)) && code == 422
  }

  lemma {:induction false} SourcedExactly(existing: seq<SecretMount>, update: seq<SecretMount>)
    requires Dataless(update)
    ensures LacksSource(Preserved(existing, update)) <==> !Sourced(existing, update)
  {
    KeptDataMeans(existing);
    var out := Preserved(existing, update);
    forall i | 0 <= i < |update| && update[i].secretRef == ""
      ensures out[i].data.Some? <==>
                exists j :: 0 <= j < |existing| && existing[j].name == update[i].name && existing[j].secretRef == "" &&
                            existing[j].data.Some?
    {
      assert out[i] == Restored(KeptData(existing), update[i]);
      if update[i].name in KeptData(existing) {
        var j :| 0 <= j < |existing| && Inline(existing[j]) && existing[j].name == update[i].name &&
                 existing[j].data.value == KeptData(existing)[update[i].name];
      }
      if j :| 0 <= j < |existing| && existing[j].name == update[i].name && existing[j].secretRef == "" &&
              existing[j].data.Some? {
        assert Inline(existing[j]);
      }
    }
    if !Sourced(existing, update) {
      var i :| 0 <= i < |update| && update[i].secretRef == "" &&
               !exists j :: 0 <= j < |existing| && existing[j].name == update[i].name && existing[j].secretRef == "" &&
                            existing[j].data.Some?;
      assert out[i].secretRef == "" && out[i].data.None?;
    }
    if LacksSource(out) {
      var i :| 0 <= i < |out| && out[i].secretRef == "" && out[i].data.None?;
      assert update[i].secretRef == "";
    }
  }

  /** Admission, exactly: a PUT goes on to write if and only if the object exists, the body names it or nothing, the
      version sent is the stored one, no entry carries data and every entry has a source; every other one is answered
      by the first of these that fails. */
  lemma {:induction false} AdmittedExactly(db: Db, req: PutRequest)
    ensures var put := Admit(req, Read(db, req.id));
            put.req == req && (put.Writing? || put.Answered?) && (put.Writing? <==> Acceptable(db, req)) &&
            (put.Answered? ==> RefusedWith(db, req, put.code)) &&
            (put.Writing? ==> put.existing == db.objs[req.id])
  {
    if req.id in db.objs && Dataless(req.spec.secrets) {
      SourcedExactly(db.objs[req.id].spec.secrets, req.spec.secrets);
    }
  }

  /** What is put back: the data of the last inline entry of the name that is stored; nothing else changes. */
  lemma {:induction false} RestoredExactly(existing: seq<SecretMount>, update: seq<SecretMount>, i: nat, j: nat)
    requires i < |update| && Dataless(update) && j < |existing|
    requires existing[j].name == update[i].name && existing[j].secretRef == "" && existing[j].data.Some?
    requires forall m :: j < m < |existing| && existing[m].name == update[i].name && existing[m].secretRef == "" ==>
               existing[m].data.None?
    ensures |Preserved(existing, update)| == |update|
    ensures Preserved(existing, update)[i] ==
              if update[i].secretRef == "" then update[i].(data := existing[j].data) else update[i]
  {
    LastKept(existing, j);
  }

  lemma {:induction false} LastKept(secs: seq<SecretMount>, j: nat)
    requires j < |secs| && Inline(secs[j])
    requires forall m :: j < m < |secs| && secs[m].name == secs[j].name ==> !Inline(secs[m])
    ensures secs[j].name in KeptData(secs) && KeptData(secs)[secs[j].name] == secs[j].data.value
  {
    if j < |secs| - 1 {
      LastKept(secs[..|secs| - 1], j);
    }
  }

  // ----- The handlers as the source has them, with nobody else acting -----

  class Server {
    var db: Db

    constructor (db: Db)
      ensures this.db == db
    {
      this.db := db;
    }

    /** createAppDefinition. Only the spec of the request survives, and the URL names the namespace. */
    method Create(id: Id, spec: AppSpec) returns (code: nat)
      modifies this
      ensures code == if (exists i :: 0 <= i < |spec.secrets| && spec.secrets[i].data.Some?) ||
                         (exists i :: 0 <= i < |spec.secrets| && spec.secrets[i].secretRef == "" &&
                                      spec.secrets[i].data.None?)
                      then 422
                      else if id in old(db).objs then 409 else 201
      ensures db == if code == 201
                    then Db(old(db).objs[id := Stored(old(db).next, OnTheWire(spec), "")], old(db).next + 1)
                    else old(db)
    {
      var carries := RejectInlineSecretData(spec.secrets);
      if carries.Some? {
        return UNPROCESSABLE;
      }
      var lacks := RequireSecretSources(spec.secrets);
      if lacks.Some? {
        return UNPROCESSABLE;
      }
      if id in db.objs {
        return CONFLICT;
      }
      db := Db(db.objs[id := Stored(db.next, OnTheWire(spec), "")], db.next + 1);
      code := CREATED;
    }

    /** updateAppDefinition up to the write. */
    method ReadAndAdmit(req: PutRequest) returns (put: Put)
      ensures put == Admit(req, Read(db, req.id))
      ensures put.req == req && (put.Writing? || put.Answered?)
      ensures put.Writing? <==> Acceptable(db, req)
      ensures put.Answered? ==> RefusedWith(db, req, put.code)
    {
      AdmittedExactly(db, req);
      if req.id !in db.objs {
        return Answered(req, NOT_FOUND);
      }
      var existing := db.objs[req.id];
      if req.metaName != "" && req.metaName != req.id.name {
        return Answered(req, BAD_REQUEST);
      }
      if req.metaNs != "" && req.metaNs != req.id.ns {
        return Answered(req, BAD_REQUEST);
      }
      if req.rv.None? {
        return Answered(req, PRECONDITION_REQUIRED);
      }
      if req.rv.value != existing.rv {
        return Answered(req, CONFLICT);
      }
      var carries := RejectInlineSecretData(req.spec.secrets);
      if carries.Some? {
        return Answered(req, UNPROCESSABLE);
      }
      var secrets := new SecretMount[|req.spec.secrets|](i requires 0 <= i < |req.spec.secrets| => req.spec.secrets[i]);
      assert secrets[..] == req.spec.secrets;
      PreserveInlineSecretData(existing.spec.secrets, secrets);
      var lacks := RequireSecretSources(secrets[..]);
      if lacks.Some? {
        return Answered(req, UNPROCESSABLE);
      }
      put := Writing(req, existing, req.spec.(secrets := secrets[..]));
    }

    /** updateAppDefinition. */
    method Update(req: PutRequest) returns (code: nat)
      modifies this
      ensures code == 200 <==> Acceptable(old(db), req)
      ensures code != 200 ==> db == old(db) && RefusedWith(old(db), req, code)
      ensures code == 200 ==>
                db == Replace(old(db), req.id,
                              req.spec.(secrets := Preserved(old(db).objs[req.id].spec.secrets, req.spec.secrets)))
    {
      var put := ReadAndAdmit(req);
      if put.Answered? {
        return put.code;
      }
      var written := CompareAndSwap(db, req.id, put.existing.rv, put.spec);
      db := written.0;
      code := written.1;
    }

    /** getAppDefinition: the spec without inline data. */
    method Get(id: Id) returns (code: nat, spec: Option<AppSpec>)
      ensures code == if id in db.objs then 200 else 404
      ensures spec == if id in db.objs then Some(db.objs[id].spec.(secrets := Redacted(db.objs[id].spec.secrets)))
                      else None
      ensures id in db.objs ==>
                spec.Some? && |spec.value.secrets| == |db.objs[id].spec.secrets| &&
                forall i :: 0 <= i < |spec.value.secrets| ==>
                  spec.value.secrets[i] == db.objs[id].spec.secrets[i].(data := None)
    {
      if id !in db.objs {
        return NOT_FOUND, None;
      }
      var stored := db.objs[id].spec;
      var secrets := new SecretMount[|stored.secrets|](i requires 0 <= i < |stored.secrets| => stored.secrets[i]);
      assert secrets[..] == stored.secrets;
      Sanitize(secrets);
      code, spec := OK, Some(stored.(secrets := secrets[..]));
    }

    /** deleteAppDefinition. */
    method Delete(id: Id) returns (code: nat)
      modifies this
      ensures code == if id in old(db).objs then 204 else 404
      ensures db == Db(old(db).objs - {id}, old(db).next)
    {
      if id !in db.objs {
        assert db.objs - {id} == db.objs;
        return NOT_FOUND;
      }
      db := Db(db.objs - {id}, db.next);
      code := NO_CONTENT;
    }
  }

  /** A client that sends back unchanged what it got: answered 200 with the stored object exactly as it
      was, version included, if and only if the secrets make the round trip. */
  lemma {:induction false} GetThenPut(db: Db, id: Id)
    requires id in db.objs
    ensures var stored := db.objs[id];
            var req := PutRequest(id, id.ns, id.name, Some(stored.rv),
                                  stored.spec.(secrets := Redacted(stored.spec.secrets)));
            var put := Admit(req, Read(db, id));
            Advance(db, put) == (db, Answered(req, OK)) <==> RoundTrips(stored.spec.secrets)
  {
    var stored := db.objs[id];
    RoundTripExactly(stored.spec.secrets);
    var secrets := Preserved(stored.spec.secrets, Redacted(stored.spec.secrets));
    assert OnTheWire(stored.spec.(secrets := secrets)) == stored.spec <==> Wire(secrets) == stored.spec.secrets;
  }

  // ----- Interleavings -----

  /** Handlers under way over one database. */
  datatype World = World(db: Db, puts: seq<Put>)

  datatype Act =
    /** The next call of PUT handler i. */
    | Go(i: nat)
    /** The operator writes a status. */
    | StatusWrite(id: Id, status: string)
    /** POST, answered by Server.Create. */
    | Post(id: Id, spec: AppSpec)
    /** DELETE. */
    | Remove(id: Id)
    /** Somebody edits the spec without this API. */
    | Edit(id: Id, spec: AppSpec)

  function Created(db: Db, id: Id, spec: AppSpec): Db {
    if CarriesData(spec.secrets) || LacksSource(spec.secrets) || id in db.objs then db
    else Db(db.objs[id := Stored(db.next, OnTheWire(spec), "")], db.next + 1)
  }

  function Next(w: World, act: Act): World {
    match act
    case Go(i) =>
      if i < |w.puts| then
        var r := Advance(w.db, w.puts[i]);
        World(r.0, w.puts[i := r.1])
      else w
    case StatusWrite(id, status) =>
      if id in w.db.objs && w.db.objs[id].status != status
      then w.(db := Db(w.db.objs[id := Stored(w.db.next, w.db.objs[id].spec, status)], w.db.next + 1)) else w
    case Post(id, spec) => w.(db := Created(w.db, id, spec))
    case Remove(id) => w.(db := Db(w.db.objs - {id}, w.db.next))
    case Edit(id, spec) => if id in w.db.objs then w.(db := Replace(w.db, id, spec)) else w
  }

  function After(w: World, acts: seq<Act>): World {
    if acts == [] then w else Next(After(w, acts[..|acts| - 1]), acts[|acts| - 1])
  }

  predicate Fresh(w: World) {
    (forall id :: id in w.db.objs ==> w.db.objs[id].rv < w.db.next) &&
    forall i :: 0 <= i < |w.puts| ==> w.puts[i].Reading?
  }

  /** A handler about to write holds the version its client sent; while that version is current, what the
      handler read is what is stored. */
  predicate Coherent(db: Db, put: Put) {
    put.Writing? ==>
      put.req.rv == Some(put.existing.rv) && put.existing.rv < db.next && NamesMatch(put.req) &&
      !CarriesData(put.req.spec.secrets) && Sourced(put.existing.spec.secrets, put.req.spec.secrets) &&
      put.spec == put.req.spec.(secrets := Preserved(put.existing.spec.secrets, put.req.spec.secrets)) &&
      (put.req.id in db.objs && db.objs[put.req.id].rv == put.existing.rv ==> db.objs[put.req.id] == put.existing)
  }

  predicate Sound(w: World) {
    (forall id :: id in w.db.objs ==> w.db.objs[id].rv < w.db.next) &&
    forall i :: 0 <= i < |w.puts| ==> Coherent(w.db, w.puts[i])
  }

  lemma {:induction false} NextSound(w: World, act: Act)
    requires Sound(w)
    ensures Sound(Next(w, act))
  {
    var w' := Next(w, act);
    forall i | 0 <= i < |w'.puts|
      ensures Coherent(w'.db, w'.puts[i])
    {
      assert Coherent(w.db, w.puts[i]);
      if w.puts[i].Reading? {
        AdmittedExactly(w.db, w.puts[i].req);
      }
    }
  }

  lemma {:induction false} AlwaysSound(w: World, acts: seq<Act>)
    requires Sound(w)
    ensures Sound(After(w, acts)) && |After(w, acts).puts| == |w.puts|
    ensures forall i :: 0 <= i < |w.puts| ==> After(w, acts).puts[i].req == w.puts[i].req
  {
    if acts != [] {
      AlwaysSound(w, acts[..|acts| - 1]);
      NextSound(After(w, acts[..|acts| - 1]), acts[|acts| - 1]);
    }
  }

  /** Handler i is about to be answered 200. */
  predicate Succeeds(w: World, i: nat) {
    i < |w.puts| && w.puts[i].Writing? && Next(w, Go(i)).puts[i] == Answered(w.puts[i].req, OK)
  }

  /** No lost update: in every interleaving a 200 replaces exactly the version that the client sent, which
      is the object the handler had read and is still unchanged; the new spec is the client's with the
      stored inline data put back, and the status is kept. */
  lemma {:induction false} AnswerReplacesSentVersion(w: World, acts: seq<Act>, i: nat)
    requires Fresh(w) && i < |w.puts|
    requires Succeeds(After(w, acts), i)
    ensures var now, req := After(w, acts), w.puts[i].req;
            var db' := Next(now, Go(i)).db;
            Acceptable(now.db, req) && Next(now, Go(i)).puts[i].code == 200 &&
            req.id in db'.objs && db'.objs[req.id].status == now.db.objs[req.id].status &&
            db'.objs[req.id].spec ==
              OnTheWire(req.spec.(secrets := Preserved(now.db.objs[req.id].spec.secrets, req.spec.secrets))) &&
            forall id :: id != req.id ==> Read(db', id) == Read(now.db, id)
  {
    AlwaysSound(w, acts);
    var now := After(w, acts);
    assert Coherent(now.db, now.puts[i]);
  }

  /** Version v of an object is gone for good. */
  predicate Past(db: Db, id: Id, v: nat) {
    v < db.next && (id in db.objs ==> db.objs[id].rv > v)
  }

  lemma {:induction false} PastStays(w: World, acts: seq<Act>, id: Id, v: nat)
    requires Past(w.db, id, v)
    ensures Past(After(w, acts).db, id, v)
  {
    if acts != [] {
      PastStays(w, acts[..|acts| - 1], id, v);
    }
  }

  predicate ChangesSpec(w: World, i: nat) {
    Succeeds(w, i) && w.puts[i].req.id in w.db.objs && Next(w, Go(i)).db != w.db
  }

  /** Of two PUTs that carry the same version of the same object at most one changes it: once one has, no
      other is ever answered 200. */
  lemma {:induction false} AtMostOneChange(w: World, acts: seq<Act>, i: nat, later: seq<Act>, j: nat)
    requires Fresh(w) && i < |w.puts| && j < |w.puts|
    requires w.puts[i].req.id == w.puts[j].req.id && w.puts[i].req.rv == w.puts[j].req.rv
    requires ChangesSpec(After(w, acts), i)
    ensures !Succeeds(After(Next(After(w, acts), Go(i)), later), j)
  {
    AlwaysSound(w, acts);
    var now := After(w, acts);
    assert Coherent(now.db, now.puts[i]);
    var then' := Next(now, Go(i));
    NextSound(now, Go(i));
    AlwaysSound(then', later);
    PastStays(then', later, w.puts[i].req.id, now.puts[i].existing.rv);
    assert Coherent(After(then', later).db, After(then', later).puts[j]);
  }

  // ----- Inline secrets over a run -----

  predicate HoldsInline(db: Db, id: Id, name: string, data: map<string, string>) {
    id in db.objs && HasInline(db.objs[id].spec.secrets, name, data)
  }

  lemma {:induction false} WireAddsNothing(secs: seq<SecretMount>, name: string, data: map<string, string>)
    ensures HasInline(Wire(secs), name, data) ==> HasInline(secs, name, data)
    ensures HasInline(secs, name, data) ==> CarriesData(secs)
  {
    if HasInline(Wire(secs), name, data) {
      var i :| 0 <= i < |secs| && Wire(secs)[i].name == name && Wire(secs)[i].data == Some(data);
      assert secs[i].data == Some(data);
    }
  }

  lemma {:induction false} NextConserves(w: World, act: Act, id: Id, name: string, data: map<string, string>)
    requires Sound(w) && !act.Edit?
    ensures HoldsInline(Next(w, act).db, id, name, data) ==> HoldsInline(w.db, id, name, data)
  {
    match act
    case Go(i) =>
      if i < |w.puts| && w.puts[i].Writing? && HoldsInline(Next(w, act).db, id, name, data) && Next(w, act).db != w.db {
        var put := w.puts[i];
        assert Coherent(w.db, put);
        if put.req.id == id {
          PreservedAddsNothing(put.existing.spec.secrets, put.req.spec.secrets, name, data);
        }
      }
    case Post(_, spec) =>
      WireAddsNothing(spec.secrets, name, data);
    case _ =>
  }

  /** Conservation: whatever clients create, update and delete through the API, with status writes in
      between, every piece of inline secret data in the store was there to begin with, in the same app and
      under the same entry name. */
  lemma {:induction false} InlineDataIsConserved(w: World, acts: seq<Act>, id: Id, name: string,
                                                 data: map<string, string>)
    requires Sound(w) && forall act :: act in acts ==> !act.Edit?
    requires HoldsInline(After(w, acts).db, id, name, data)
    ensures HoldsInline(w.db, id, name, data)
  {
    if acts != [] {
      var init, act := acts[..|acts| - 1], acts[|acts| - 1];
      assert act in acts;
      AlwaysSound(w, init);
      NextConserves(After(w, init), act, id, name, data);
      InlineDataIsConserved(w, init, id, name, data);
    }
  }
}
