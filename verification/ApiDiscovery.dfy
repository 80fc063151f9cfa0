/**
 Which version of an optional API the cluster serves: resolvePreferredGVK in
 internal/controller/helpers.go and resolveMiddlewareAPI in internal/controller/reconcile_middleware.go.
 */
module ApiDiscovery {
  import opened Common

  /** The mapper's answer for one version. */
  datatype Mapping = Known | NoMatch | Trouble(text: string)

  datatype Resolution = Found(index: nat) | Unavailable | Failing(text: string)

  /** Versions are tried newest first; when none is known the answer for the last one decides, so trouble
      with a newer version is passed over if the oldest is simply not there. */
  method ResolvePreferred(answers: seq<Mapping>) returns (r: Resolution)
    requires answers != []
    ensures r.Found? <==> Known in answers
    ensures r.Found? ==> r.index < |answers| && answers[r.index] == Known && Known !in answers[..r.index]
    ensures r.Unavailable? <==> Known !in answers && answers[|answers| - 1] == NoMatch
    ensures r.Failing? ==> answers[|answers| - 1] == Trouble(r.text)
  {
    var lastErr := NoMatch;
    for i := 0 to |answers|
      invariant Known !in answers[..i]
      invariant i > 0 ==> lastErr == answers[i - 1]
    {
      if answers[i] == Known {
        return Found(i);
      }
      lastErr := answers[i];
    }
    assert answers[..|answers|] == answers;
    r := if lastErr.Trouble? then Failing(lastErr.text) else Unavailable;
  }

  /** resolveMiddlewareAPI: the current group if served, else the legacy one. Some(true) is legacy. */
  method ResolveMiddlewareApi(current: Mapping, legacy: Mapping) returns (r: Resolution, api: Option<bool>)
    ensures current == Known ==> api == Some(false)
    ensures current != Known && legacy == Known ==> api == Some(true)
    ensures current != Known && legacy != Known ==> api == None && (r.Unavailable? <==> legacy == NoMatch)
  {
    r := ResolvePreferred([current, legacy]);
    assert [current, legacy][..1] == [current];
    api := if r.Found? then Some(r.index == 1) else None;
  }
}
