/**
 Inline secrets at the API boundary: what internal/apiserver/handlers.go hides from clients, refuses
 from them, and puts back before it writes.
 */
module Redaction {
  import opened Common
  import opened Spec

  // ----- Specifications -----

  function Hidden(sec: SecretMount): SecretMount {
    sec.(data := None)
  }

  /** sanitizeAppDefinition. */
  function Redacted(secs: seq<SecretMount>): seq<SecretMount> {
    seq(|secs|, i requires 0 <= i < |secs| => Hidden(secs[i]))
  }

  predicate Inline(sec: SecretMount) {
    sec.secretRef == "" && sec.data.Some?
  }

  /** The inline data of a list by entry name; the last entry of a name counts. */
  function KeptData(secs: seq<SecretMount>): map<string, map<string, string>> {
    if secs == [] then map[]
    else
      var r, last := KeptData(secs[..|secs| - 1]), secs[|secs| - 1];
      if Inline(last) then r[last.name := last.data.value] else r
  }

  function Restored(kept: map<string, map<string, string>>, sec: SecretMount): SecretMount {
    if sec.secretRef == "" && sec.data.None? then sec.(data := if sec.name in kept then Some(kept[sec.name]) else None)
    else sec
  }

  /** preserveInlineSecretData. */
  function Preserved(existing: seq<SecretMount>, update: seq<SecretMount>): seq<SecretMount> {
    seq(|update|, i requires 0 <= i < |update| => Restored(KeptData(existing), update[i]))
  }

  predicate CarriesData(secs: seq<SecretMount>) {
    exists i :: 0 <= i < |secs| && secs[i].data.Some?
  }

  predicate LacksSource(secs: seq<SecretMount>) {
    exists i :: 0 <= i < |secs| && secs[i].secretRef == "" && secs[i].data.None?
  }

  /** The data field is dropped from what is sent when it is empty (json omitempty). */
  function Sent(sec: SecretMount): SecretMount {
    if sec.data == Some(map[]) then sec.(data := None) else sec
  }

  function Wire(secs: seq<SecretMount>): seq<SecretMount> {
    seq(|secs|, i requires 0 <= i < |secs| => Sent(secs[i]))
  }

  /** On the way to the API server empty data is lost and nothing else. */
  lemma {:induction false} WireSpelled(secs: seq<SecretMount>, i: nat)
    requires i < |secs|
    ensures |Wire(secs)| == |secs|
    ensures Wire(secs)[i] == secs[i].(data := if secs[i].data == Some(map[]) then None else secs[i].data)
  {
  }

  // ----- The loops -----

  /** rejectInlineSecretData: the first entry that carries data, if any. */
  method RejectInlineSecretData(secs: seq<SecretMount>) returns (bad: Option<string>)
    ensures bad.Some? <==> CarriesData(secs)
    ensures bad.Some? ==> exists i :: 0 <= i < |secs| && secs[i].data.Some? && secs[i].name == bad.value &&
                                      !CarriesData(secs[..i])
  {
    for i := 0 to |secs|
      invariant !CarriesData(secs[..i])
    {
      if secs[i].data.Some? {
        return Some(secs[i].name);
      }
    }
    assert secs[..|secs|] == secs;
    bad := None;
  }

  /** requireSecretSources: the first entry with neither reference nor data, if any. */
  method RequireSecretSources(secs: seq<SecretMount>) returns (bad: Option<string>)
    ensures bad.Some? <==> LacksSource(secs)
    ensures bad.Some? ==>
              exists i :: 0 <= i < |secs| && secs[i].secretRef == "" && secs[i].data.None? &&
                          secs[i].name == bad.value && !LacksSource(secs[..i])
  {
    for i := 0 to |secs|
      invariant !LacksSource(secs[..i])
    {
      if secs[i].secretRef == "" && secs[i].data.None? {
        return Some(secs[i].name);
      }
    }
    assert secs[..|secs|] == secs;
    bad := None;
  }

  /** preserveInlineSecretData: fills in the update's entries in place. */
  method PreserveInlineSecretData(existing: seq<SecretMount>, update: array<SecretMount>)
    modifies update
    ensures update[..] == Preserved(existing, old(update[..]))
  {
    var existingData: map<string, map<string, string>> := map[];
    for i := 0 to |existing|
      invariant existingData == KeptData(existing[..i])
      invariant update[..] == old(update[..])
    {
      assert existing[..i + 1][..i] == existing[..i];
      if existing[i].secretRef == "" && existing[i].data.Some? {
        existingData := existingData[existing[i].name := existing[i].data.value];
      }
    }
    assert existing[..|existing|] == existing;
    for i := 0 to update.Length
      invariant forall j :: 0 <= j < i ==> update[j] == Restored(existingData, old(update[j]))
      invariant forall j :: i <= j < update.Length ==> update[j] == old(update[j])
    {
      if update[i].secretRef == "" && update[i].data.None? {
        update[i] :=
          update[i].(data := if update[i].name in existingData then Some(existingData[update[i].name]) else None);
      }
    }
  }

  /** sanitizeAppDefinition, on the copy that is sent to the client. */
  method Sanitize(secs: array<SecretMount>)
    modifies secs
    ensures secs[..] == Redacted(old(secs[..]))
  {
    for i := 0 to secs.Length
      invariant forall j :: 0 <= j < i ==> secs[j] == Hidden(old(secs[j]))
      invariant forall j :: i <= j < secs.Length ==> secs[j] == old(secs[j])
    {
      secs[i] := secs[i].(data := None);
    }
  }

  // ----- Round trip -----

  lemma {:induction false} KeptDataMeans(secs: seq<SecretMount>)
    ensures forall n :: n in KeptData(secs) ==> exists i :: 0 <= i < |secs| && Inline(secs[i]) && secs[i].name == n &&
                                                            secs[i].data.value == KeptData(secs)[n]
    ensures forall i :: 0 <= i < |secs| && Inline(secs[i]) ==> secs[i].name in KeptData(secs)
  {
    if secs != [] {
      var init := secs[..|secs| - 1];
      KeptDataMeans(init);
      forall n | n in KeptData(secs)
        ensures exists i :: 0 <= i < |secs| && Inline(secs[i]) && secs[i].name == n &&
                            secs[i].data.value == KeptData(secs)[n]
      {
        var last := secs[|secs| - 1];
        if !(Inline(last) && last.name == n) {
          assert n in KeptData(init) && KeptData(init)[n] == KeptData(secs)[n];
          var i :| 0 <= i < |init| && Inline(init[i]) && init[i].name == n && init[i].data.value == KeptData(init)[n];
          assert secs[i] == init[i];
        }
      }
      forall i | 0 <= i < |secs| && Inline(secs[i])
        ensures secs[i].name in KeptData(secs)
      {
        assert i < |init| ==> init[i] == secs[i];
      }
    }
  }

  /** Every entry has exactly one source, no inline data is empty, and inline entries that share a name
      carry the same data. */
  predicate RoundTrips(secs: seq<SecretMount>) {
    (forall i :: 0 <= i < |secs| ==> (secs[i].secretRef != "") != secs[i].data.Some?) &&
    (forall i :: 0 <= i < |secs| && secs[i].data.Some? ==> secs[i].data.value != map[]) &&
    (forall i, j :: 0 <= i < |secs| && 0 <= j < |secs| && Inline(secs[i]) && Inline(secs[j]) &&
                    secs[i].name == secs[j].name ==>
       secs[i].data == secs[j].data)
  }

  lemma {:induction false} RoundTripWorks(secs: seq<SecretMount>)
    requires RoundTrips(secs)
    ensures !LacksSource(Preserved(secs, Redacted(secs))) && Wire(Preserved(secs, Redacted(secs))) == secs
  {
    KeptDataMeans(secs);
    var out := Preserved(secs, Redacted(secs));
    forall i | 0 <= i < |secs|
      ensures out[i] == secs[i]
    {
      if Inline(secs[i]) {
        assert secs[i].name in KeptData(secs);
        var j :| 0 <= j < |secs| && Inline(secs[j]) && secs[j].name == secs[i].name &&
                 secs[j].data.value == KeptData(secs)[secs[i].name];
      }
    }
    assert out == secs;
  }

  lemma {:induction false} RoundTripNeeds(secs: seq<SecretMount>)
    requires !LacksSource(Preserved(secs, Redacted(secs))) && Wire(Preserved(secs, Redacted(secs))) == secs
    ensures RoundTrips(secs)
  {
    KeptDataMeans(secs);
    var kept, out := KeptData(secs), Preserved(secs, Redacted(secs));
    forall i | 0 <= i < |secs|
      ensures secs[i] == Sent(out[i]) && out[i] == Restored(kept, Hidden(secs[i]))
      ensures secs[i].data.Some? ==> secs[i].data.value != map[]
    {
      assert Wire(out)[i] == Sent(out[i]);
    }
    forall i | 0 <= i < |secs|
      ensures (secs[i].secretRef != "") != secs[i].data.Some?
      ensures Inline(secs[i]) ==> secs[i].name in kept && secs[i].data == Some(kept[secs[i].name])
    {
      assert !(out[i].secretRef == "" && out[i].data.None?);
      if secs[i].secretRef == "" {
        assert secs[i].name in kept;
        var j :| 0 <= j < |secs| && Inline(secs[j]) && secs[j].name == secs[i].name &&
                 secs[j].data.value == kept[secs[i].name];
        assert secs[j].data.value != map[];
      }
    }
  }

  /** GET then PUT of the same body: the stored secrets come back exactly when every entry has exactly one
      source, no inline data is empty and same-named inline entries agree. In every other case the update
      is refused or alters a stored secret. */
  lemma {:induction false} RoundTripExactly(secs: seq<SecretMount>)
    ensures !CarriesData(Redacted(secs))
    ensures !LacksSource(Preserved(secs, Redacted(secs))) && Wire(Preserved(secs, Redacted(secs))) == secs <==>
              RoundTrips(secs)
  {
    if RoundTrips(secs) {
      RoundTripWorks(secs);
    }
    if !LacksSource(Preserved(secs, Redacted(secs))) && Wire(Preserved(secs, Redacted(secs))) == secs {
      RoundTripNeeds(secs);
    }
  }

  /** What a client sees does not depend on inline data. */
  lemma {:induction false} RedactionHidesData(a: seq<SecretMount>, b: seq<SecretMount>)
    requires |a| == |b| && forall i :: 0 <= i < |a| ==> a[i].(data := b[i].data) == b[i]
    ensures Redacted(a) == Redacted(b)
  {
    forall i | 0 <= i < |a|
      ensures Redacted(a)[i] == Redacted(b)[i]
    {
      assert a[i].(data := b[i].data) == b[i];
    }
  }

  /** Some entry of this name carries this data. */
  predicate HasInline(secs: seq<SecretMount>, name: string, data: map<string, string>) {
    exists i :: 0 <= i < |secs| && secs[i].name == name && secs[i].data == Some(data)
  }

  /** What an admitted update stores holds no inline data but what was stored under the same name. */
  lemma {:induction false} PreservedAddsNothing(existing: seq<SecretMount>, update: seq<SecretMount>, name: string,
                                                data: map<string, string>)
    requires !CarriesData(update)
    requires HasInline(Wire(Preserved(existing, update)), name, data)
    ensures HasInline(existing, name, data)
  {
    KeptDataMeans(existing);
    var i :| 0 <= i < |update| && Wire(Preserved(existing, update))[i].name == name &&
             Wire(Preserved(existing, update))[i].data == Some(data);
    assert Sent(Restored(KeptData(existing), update[i])).data == Some(data);
    assert update[i].data.None?;
    var j :| 0 <= j < |existing| && Inline(existing[j]) && existing[j].name == name &&
             existing[j].data.value == KeptData(existing)[name];
  }
}
