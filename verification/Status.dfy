/**
 The condition list of an AppDefinition's status, as internal/controller/reconcile_status.go edits it.
 Message texts are left out.
 */
module Status {
  import opened Common

  // ----- Conditions -----

  datatype CondKind =
    | Ready | DiskReady | IngressReady | HpaActive | ExternalSecretsReady | MonitoringReady | MiddlewaresReady
    | Other(name: string)

  datatype Tri = Yes | No | Unknown

  datatype Verdict = Verdict(status: Tri, reason: string)

  datatype Cond = Cond(kind: CondKind, verdict: Verdict, generation: int, since: int)

  predicate UniqueKinds(cs: seq<Cond>) {
    forall i, j :: 0 <= i < j < |cs| ==> cs[i].kind != cs[j].kind
  }

  predicate Has(cs: seq<Cond>, kind: CondKind) {
    exists i :: 0 <= i < |cs| && cs[i].kind == kind
  }

  /** A condition that is there already keeps its transition time unless its status changes. */
  function Updated(old': Cond, c: Cond): Cond {
    c.(since := if old'.verdict.status == c.verdict.status then old'.since else c.since)
  }

  /** SetStatusCondition of the Kubernetes API machinery. */
  function SetCondition(cs: seq<Cond>, c: Cond): seq<Cond> {
    if cs == [] then [c]
    else if cs[0].kind == c.kind then [Updated(cs[0], c)] + cs[1..]
    else [cs[0]] + SetCondition(cs[1..], c)
  }

  /** RemoveStatusCondition. */
  function RemoveCondition(cs: seq<Cond>, kind: CondKind): seq<Cond> {
    if cs == [] then []
    else
      var r := RemoveCondition(cs[..|cs| - 1], kind);
      if cs[|cs| - 1].kind == kind then r else r + [cs[|cs| - 1]]
  }

  function Find(cs: seq<Cond>, kind: CondKind): Option<Cond> {
    if cs == [] then None else if cs[0].kind == kind then Some(cs[0]) else Find(cs[1..], kind)
  }

  lemma {:induction false} FindMeansHas(cs: seq<Cond>, kind: CondKind)
    ensures Find(cs, kind).Some? <==> Has(cs, kind)
    ensures Find(cs, kind).Some? ==> Find(cs, kind).value in cs && Find(cs, kind).value.kind == kind
  {
    if cs != [] {
      FindMeansHas(cs[1..], kind);
      assert cs[0].kind != kind && Has(cs, kind) ==> Has(cs[1..], kind) by {
        if cs[0].kind != kind && Has(cs, kind) {
          var i :| 0 <= i < |cs| && cs[i].kind == kind;
          assert cs[1..][i - 1].kind == kind;
        }
      }
      assert Has(cs[1..], kind) ==> Has(cs, kind) by {
        if Has(cs[1..], kind) {
          var i :| 0 <= i < |cs[1..]| && cs[1..][i].kind == kind;
          assert cs[i + 1].kind == kind;
        }
      }
    }
  }

  /** What is in force after setting or removing a condition. */
  datatype Change = Change(kind: CondKind, verdict: Option<Verdict>)

  function Changed(cs: seq<Cond>, ch: Change, generation: int, now: int): seq<Cond> {
    if ch.verdict.Some? then SetCondition(cs, Cond(ch.kind, ch.verdict.value, generation, now))
    else RemoveCondition(cs, ch.kind)
  }

  lemma {:induction false} SetShape(cs: seq<Cond>, c: Cond)
    ensures forall kind :: Find(SetCondition(cs, c), kind)
                           == if kind != c.kind then Find(cs, kind)
                              else if Find(cs, kind).Some? then Some(Updated(Find(cs, kind).value, c)) else Some(c)
    ensures UniqueKinds(cs) ==> UniqueKinds(SetCondition(cs, c))
    ensures forall x :: x in SetCondition(cs, c) ==> x.kind == c.kind || x in cs
  {
    if cs != [] && cs[0].kind != c.kind {
      SetShape(cs[1..], c);
      var r := SetCondition(cs[1..], c);
      assert SetCondition(cs, c) == [cs[0]] + r;
      assert cs == [cs[0]] + cs[1..];
      if UniqueKinds(cs) {
        forall i | 0 <= i < |r|
          ensures r[i].kind != cs[0].kind
        {
          assert r[i] in r;
        }
      }
    } else if cs == [] {
      assert [c][1..] == [];
    }
  }

  lemma {:induction false} RemoveShape(cs: seq<Cond>, kind: CondKind)
    ensures forall x :: x in RemoveCondition(cs, kind) <==> x in cs && x.kind != kind
    ensures UniqueKinds(cs) ==> UniqueKinds(RemoveCondition(cs, kind))
  {
    if cs != [] {
      RemoveShape(cs[..|cs| - 1], kind);
      assert cs == cs[..|cs| - 1] + [cs[|cs| - 1]];
      var r := RemoveCondition(cs[..|cs| - 1], kind);
      if UniqueKinds(cs) {
        forall i | 0 <= i < |r|
          ensures r[i].kind != cs[|cs| - 1].kind
        {
          assert r[i] in r && r[i] in cs[..|cs| - 1];
        }
      }
    }
  }

  lemma {:induction false} UniqueFind(cs: seq<Cond>, c: Cond)
    requires UniqueKinds(cs) && c in cs
    ensures Find(cs, c.kind) == Some(c)
  {
    if cs[0] != c {
      assert cs == [cs[0]] + cs[1..];
      UniqueFind(cs[1..], c);
      var i :| 0 <= i < |cs[1..]| && cs[1..][i] == c;
      assert cs[i + 1] == c;
    }
  }

  lemma {:induction false} RemoveFind(cs: seq<Cond>, kind: CondKind, other: CondKind)
    requires UniqueKinds(cs)
    ensures Find(RemoveCondition(cs, kind), other) == if other == kind then None else Find(cs, other)
  {
    RemoveShape(cs, kind);
    FindMeansHas(cs, other);
    var r := RemoveCondition(cs, kind);
    FindMeansHas(r, other);
    if other != kind && Find(cs, other).Some? {
      UniqueFind(r, Find(cs, other).value);
    }
    if Find(r, other).Some? {
      UniqueFind(cs, Find(r, other).value);
    }
  }

  /** A change decides its own kind and no other. */
  lemma {:induction false} ChangedFind(cs: seq<Cond>, ch: Change, generation: int, now: int, other: CondKind)
    requires UniqueKinds(cs)
    ensures UniqueKinds(Changed(cs, ch, generation, now))
    ensures var after := Find(Changed(cs, ch, generation, now), other);
            if other != ch.kind then after == Find(cs, other)
            else if ch.verdict.None? then after == None
            else after.Some? && after.value.kind == other && after.value.verdict == ch.verdict.value &&
                 after.value.generation == generation &&
                 after.value.since == if Find(cs, other).Some? &&
                 Find(cs, other).value.verdict.status == ch.verdict.value.status
                                      then Find(cs, other).value.since else now
  {
    if ch.verdict.Some? {
      SetShape(cs, Cond(ch.kind, ch.verdict.value, generation, now));
    } else {
      RemoveShape(cs, ch.kind);
      RemoveFind(cs, ch.kind, other);
    }
  }

  function ChangedAll(cs: seq<Cond>, changes: seq<Change>, generation: int, now: int): seq<Cond> {
    if changes == [] then cs
    else Changed(ChangedAll(cs, changes[..|changes| - 1], generation, now), changes[|changes| - 1], generation, now)
  }

  predicate DistinctChanges(changes: seq<Change>) {
    forall i, j :: 0 <= i < j < |changes| ==> changes[i].kind != changes[j].kind
  }

  /** After a list of changes to distinct kinds every condition is as its change says, once per kind, and
      the others are as before; a transition time moves exactly when the status does. */
  lemma {:induction false} AllChanged(cs: seq<Cond>, changes: seq<Change>, generation: int, now: int, kind: CondKind)
    requires UniqueKinds(cs) && DistinctChanges(changes)
    ensures UniqueKinds(ChangedAll(cs, changes, generation, now))
    ensures var after := Find(ChangedAll(cs, changes, generation, now), kind);
            (forall ch :: ch in changes && ch.kind == kind ==>
               if ch.verdict.None? then after == None
               else after.Some? && after.value.kind == kind && after.value.verdict == ch.verdict.value &&
                    after.value.generation == generation &&
                    after.value.since == if Find(cs, kind).Some? &&
                    Find(cs, kind).value.verdict.status == ch.verdict.value.status
                                         then Find(cs, kind).value.since else now) &&
            ((forall ch :: ch in changes ==> ch.kind != kind) ==> after == Find(cs, kind))
  {
    if changes != [] {
      var init, last := changes[..|changes| - 1], changes[|changes| - 1];
      assert changes == init + [last];
      AllChanged(cs, init, generation, now, kind);
      ChangedFind(ChangedAll(cs, init, generation, now), last, generation, now, kind);
      forall ch | ch in init
        ensures ch.kind != last.kind
      {
        var i: nat :| i < |init| && init[i] == ch;
        assert changes[i] == ch;
      }
    }
  }

  /** The condition list that a status update edits in place. */
  class ConditionList {
    var items: seq<Cond>

    constructor (items: seq<Cond>)
      ensures this.items == items
    {
      this.items := items;
    }

    method Set(c: Cond)
      modifies this
      ensures items == SetCondition(old(items), c)
    {
      ghost var before := items;
      for i := 0 to |items|
        invariant items == before
        invariant SetCondition(before, c) == before[..i] + SetCondition(before[i..], c)
      {
        assert before[i..][1..] == before[i + 1..];
        if items[i].kind == c.kind {
          var since := if items[i].verdict.status != c.verdict.status then c.since else items[i].since;
          items := items[i := c.(since := since)];
          assert items == before[..i] + ([Updated(before[i], c)] + before[i + 1..]);
          return;
        }
        assert before[..i] + ([before[i]] + SetCondition(before[i + 1..], c)) ==
                 before[..i + 1] + SetCondition(before[i + 1..], c);
      }
      items := items + [c];
    }

    method Remove(kind: CondKind)
      modifies this
      ensures items == RemoveCondition(old(items), kind)
    {
      ghost var before := items;
      var kept: seq<Cond> := [];
      for i := 0 to |items|
        invariant items == before && kept == RemoveCondition(before[..i], kind)
      {
        assert before[..i + 1][..i] == before[..i];
        if items[i].kind != kind {
          kept := kept + [items[i]];
        }
      }
      assert before[..|before|] == before;
      items := kept;
    }

    method Apply(ch: Change, generation: int, now: int)
      modifies this
      ensures items == Changed(old(items), ch, generation, now)
    {
      if ch.verdict.Some? {
        Set(Cond(ch.kind, ch.verdict.value, generation, now));
      } else {
        Remove(ch.kind);
      }
    }
  }
}
