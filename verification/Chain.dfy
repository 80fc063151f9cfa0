/**
 The Traefik reference chain of one Ingress: the loop in internal/controller/reconcile_ingress.go
 that merges explicit references with the native middlewares of a domain, and the list of enabled
 kinds from internal/controller/reconcile_middleware.go.
 */
module Chain {
  import opened Names
  import opened Common
  import opened Spec

  // ----- strings.Split on a comma, strings.Join, strings.TrimSpace -----

  function SplitComma(s: string): (r: seq<string>)
    ensures r != []
  {
    if s == "" then [""]
    else
      var r := SplitComma(s[1..]);
      if s[0] == ',' then [""] + r else [[s[0]] + r[0]] + r[1..]
  }

  function JoinComma(xs: seq<string>): string {
    if xs == [] then ""
    else if |xs| == 1 then xs[0]
    else xs[0] + "," + JoinComma(xs[1..])
  }

  /** unicode.IsSpace. */
  predicate IsSpace(c: char) {
    '\t' <= c <= '\r' || c == ' ' || c == '\U{85}' || c == '\U{A0}' || c == '\U{1680}' ||
    '\U{2000}' <= c <= '\U{200a}' || c == '\U{2028}' || c == '\U{2029}' || c == '\U{202f}' ||
    c == '\U{205f}' || c == '\U{3000}'
  }

  /** The white space of Unicode, rune by rune. */
  lemma {:induction false} SpacesListed(c: char)
    ensures IsSpace(c) <==>
              c in {'\t', '\n', '\U{0B}', '\U{0C}', '\r', ' ', '\U{85}', '\U{A0}', '\U{1680}', '\U{2000}', '\U{2001}',
                    '\U{2002}', '\U{2003}', '\U{2004}', '\U{2005}', '\U{2006}', '\U{2007}', '\U{2008}', '\U{2009}',
                    '\U{200A}', '\U{2028}', '\U{2029}', '\U{202F}', '\U{205F}', '\U{3000}'}
  {
  }

  function TrimSpaceLeft(s: string): string {
    if s != "" && IsSpace(s[0]) then TrimSpaceLeft(s[1..]) else s
  }

  function TrimSpaceRight(s: string): string {
    if s != "" && IsSpace(s[|s| - 1]) then TrimSpaceRight(s[..|s| - 1]) else s
  }

  function TrimSpace(s: string): string {
    TrimSpaceRight(TrimSpaceLeft(s))
  }

  /** A reference as the merge leaves it: not empty, no comma, no space at either end. */
  predicate Clean(s: string) {
    s != "" && ',' !in s && !IsSpace(s[0]) && !IsSpace(s[|s| - 1])
  }

  lemma {:induction false} TrimSpaceLeftShape(s: string)
    ensures TrimSpaceLeft(s) == "" || !IsSpace(TrimSpaceLeft(s)[0])
    ensures forall c :: c in TrimSpaceLeft(s) ==> c in s
    ensures s != "" && !IsSpace(s[0]) ==> TrimSpaceLeft(s) == s
  {
    if s != "" && IsSpace(s[0]) {
      TrimSpaceLeftShape(s[1..]);
    }
  }

  lemma {:induction false} TrimSpaceRightShape(s: string)
    ensures TrimSpaceRight(s) == "" || !IsSpace(TrimSpaceRight(s)[|TrimSpaceRight(s)| - 1])
    ensures TrimSpaceRight(s) != "" ==> TrimSpaceRight(s)[0] == s[0]
    ensures forall c :: c in TrimSpaceRight(s) ==> c in s
    ensures s != "" && !IsSpace(s[|s| - 1]) ==> TrimSpaceRight(s) == s
  {
    if s != "" && IsSpace(s[|s| - 1]) {
      TrimSpaceRightShape(s[..|s| - 1]);
    }
  }

  lemma {:induction false} TrimSpaceShape(s: string)
    ensures ',' !in s && TrimSpace(s) != "" ==> Clean(TrimSpace(s))
    ensures Clean(s) ==> TrimSpace(s) == s
  {
    TrimSpaceLeftShape(s);
    TrimSpaceRightShape(TrimSpaceLeft(s));
  }

  lemma {:induction false} SplitHasNoComma(s: string)
    ensures forall x :: x in SplitComma(s) ==> ',' !in x
  {
    if s != "" {
      SplitHasNoComma(s[1..]);
      var r := SplitComma(s[1..]);
      assert r[0] in r;
      forall x | x in SplitComma(s)
        ensures ',' !in x
      {
        if s[0] != ',' && x != [s[0]] + r[0] {
          assert x in r[1..];
        }
      }
    }
  }

  lemma {:induction false} SplitPrepend(x: string, s: string)
    requires ',' !in x
    ensures SplitComma(x) == [x]
    ensures SplitComma(x + "," + s) == [x] + SplitComma(s)
  {
    if x == "" {
      assert x + "," + s == "," + s;
      assert ("," + s)[1..] == s;
    } else {
      SplitPrepend(x[1..], s);
      assert (x + "," + s)[1..] == x[1..] + "," + s;
      assert [x[0]] + x[1..] == x;
    }
  }

  /** strings.Join puts a comma between two parts. */
  lemma {:induction false} JoinSpelled(xs: seq<string>, y: string)
    ensures JoinComma([y]) == y
    ensures xs != [] ==> JoinComma(xs + [y]) == JoinComma(xs) + "," + y
  {
    if |xs| == 1 {
      assert (xs + [y])[1..] == [y];
    } else if xs != [] {
      assert (xs + [y])[1..] == xs[1..] + [y];
      JoinSpelled(xs[1..], y);
      assert xs[0] + "," + (JoinComma(xs[1..]) + "," + y) == (xs[0] + "," + JoinComma(xs[1..])) + "," + y;
    }
  }

  /** strings.Split undoes strings.Join on comma-free parts. */
  lemma {:induction false} SplitJoin(xs: seq<string>)
    requires xs != []
    requires forall x :: x in xs ==> ',' !in x
    ensures SplitComma(JoinComma(xs)) == xs
  {
    if |xs| == 1 {
      SplitPrepend(xs[0], "");
    } else {
      SplitPrepend(xs[0], JoinComma(xs[1..]));
      SplitJoin(xs[1..]);
    }
  }

  // ----- The merge -----

  /** The explicit references of an annotation value: split, trimmed, blanks skipped. */
  function Kept(parts: seq<string>): (r: seq<string>)
  {
    if parts == [] then []
    else
      var r := Kept(parts[..|parts| - 1]);
      var x := TrimSpace(parts[|parts| - 1]);
      if x != "" then r + [x] else r
  }

  function Explicit(raw: string): seq<string> {
    Kept(SplitComma(raw))
  }

  /** First occurrences, in order. */
  function Dedupe(xs: seq<string>): seq<string> {
    if xs == [] then []
    else
      var r := Dedupe(xs[..|xs| - 1]);
      if xs[|xs| - 1] in r then r else r + [xs[|xs| - 1]]
  }

  function ChainRefs(raw: string, native: seq<string>): seq<string> {
    Dedupe(Explicit(raw) + native)
  }

  function NativeRef(ns: string, app: string, d: DomainSpec, kind: MiddlewareKind): string {
    ns + "-" + MiddlewareName(app, d.name, d.path, kind) + "@kubernetescrd"
  }

  function NativeRefs(ns: string, app: string, d: DomainSpec, kinds: seq<MiddlewareKind>): seq<string> {
    seq(|kinds|, i requires 0 <= i < |kinds| => NativeRef(ns, app, d, kinds[i]))
  }

  // ----- enabledMiddlewareKinds -----

  /** Whether a domain asks for one kind of middleware. */
  predicate Wants(d: DomainSpec, kind: MiddlewareKind) {
    var mw := d.middlewares;
    match kind
    case RedirectScheme => (mw.Some? && mw.value.redirectScheme.Some?) || (d.tls && d.redirectTls)
    case IpAllow => mw.Some? && mw.value.ipWhiteList.Some?
    case RateLimit => mw.Some? && mw.value.rateLimit.Some?
    case ForwardAuth => mw.Some? && mw.value.forwardAuth.Some?
    case BasicAuth => mw.Some? && mw.value.basicAuth.Some?
    case Headers => mw.Some? && mw.value.headers.Some?
    case Compress => mw.Some? && mw.value.compress.Some?
    case Rewrite => mw.Some? && mw.value.rewrite.Some?
  }

  /** The wanted kinds among the first n of the fixed chain order. */
  function WantedUpTo(d: DomainSpec, n: nat): (r: seq<MiddlewareKind>)
    requires n <= |KINDS|
  {
    if n == 0 then []
    else if Wants(d, KINDS[n - 1]) then WantedUpTo(d, n - 1) + [KINDS[n - 1]]
    else WantedUpTo(d, n - 1)
  }

  /** The enabled kinds of a domain, in chain order. */
  function EnabledKinds(d: DomainSpec): seq<MiddlewareKind> {
    WantedUpTo(d, |KINDS|)
  }

  function Rank(k: MiddlewareKind): (i: nat)
    ensures i < |KINDS| && KINDS[i] == k
  {
    match k
    case RedirectScheme => 0
    case IpAllow => 1
    case RateLimit => 2
    case ForwardAuth => 3
    case BasicAuth => 4
    case Headers => 5
    case Compress => 6
    case Rewrite => 7
  }

  lemma {:induction false} WantedUpToShape(d: DomainSpec, n: nat)
    requires n <= |KINDS|
    ensures forall k :: k in WantedUpTo(d, n) <==> Wants(d, k) && Rank(k) < n
    ensures forall i, j :: 0 <= i < j < |WantedUpTo(d, n)| ==> Rank(WantedUpTo(d, n)[i]) < Rank(WantedUpTo(d, n)[j])
  {
    if n > 0 {
      WantedUpToShape(d, n - 1);
      var r := WantedUpTo(d, n - 1);
      assert Rank(KINDS[n - 1]) == n - 1;
      assert forall i :: 0 <= i < |r| ==> r[i] in r;
    }
  }

  /** The enabled kinds are exactly the wanted ones, each once, in the fixed chain order. */
  lemma {:induction false} EnabledKindsInChainOrder(d: DomainSpec)
    ensures forall k :: k in EnabledKinds(d) <==> Wants(d, k)
    ensures forall i, j :: 0 <= i < j < |EnabledKinds(d)| ==> Rank(EnabledKinds(d)[i]) < Rank(EnabledKinds(d)[j])
    ensures Distinct(EnabledKinds(d))
  {
    WantedUpToShape(d, |KINDS|);
  }

  lemma {:induction false} WantedNext(d: DomainSpec, k: MiddlewareKind)
    ensures WantedUpTo(d, Rank(k) + 1) == if Wants(d, k) then WantedUpTo(d, Rank(k)) + [k] else WantedUpTo(d, Rank(k))
  {
    assert KINDS[Rank(k)] == k;
  }

  lemma {:induction false} NothingWithoutMiddlewares(d: DomainSpec, n: nat)
    requires 1 <= n <= |KINDS|
    requires d.middlewares == None
    ensures WantedUpTo(d, n) == WantedUpTo(d, 1)
  {
    if n > 1 {
      NothingWithoutMiddlewares(d, n - 1);
      assert Rank(KINDS[n - 1]) == n - 1;
    }
  }

  /** One of the appends of enabledMiddlewareKinds. */
  method AppendIf(kinds: seq<MiddlewareKind>, set': bool, kind: MiddlewareKind, ghost d: DomainSpec)
      returns (r: seq<MiddlewareKind>)
    requires kinds == WantedUpTo(d, Rank(kind)) && set' == Wants(d, kind)
    ensures r == WantedUpTo(d, Rank(kind) + 1)
  {
    WantedNext(d, kind);
    r := kinds;
    if set' {
      r := r + [kind];
    }
  }

  /** enabledMiddlewareKinds. */
  method EnabledMiddlewareKinds(d: DomainSpec) returns (kinds: seq<MiddlewareKind>)
    ensures kinds == EnabledKinds(d)
  {
    var mw := d.middlewares;
    kinds := AppendIf([], (mw.Some? && mw.value.redirectScheme.Some?) || (d.tls && d.redirectTls), RedirectScheme, d);
    if mw == None {
      NothingWithoutMiddlewares(d, |KINDS|);
      return;
    }
    kinds := AppendIf(kinds, mw.value.ipWhiteList.Some?, IpAllow, d);
    kinds := AppendIf(kinds, mw.value.rateLimit.Some?, RateLimit, d);
    kinds := AppendIf(kinds, mw.value.forwardAuth.Some?, ForwardAuth, d);
    kinds := AppendIf(kinds, mw.value.basicAuth.Some?, BasicAuth, d);
    kinds := AppendIf(kinds, mw.value.headers.Some?, Headers, d);
    kinds := AppendIf(kinds, mw.value.compress.Some?, Compress, d);
    kinds := AppendIf(kinds, mw.value.rewrite.Some?, Rewrite, d);
  }

  lemma {:induction false} DedupeSnoc(xs: seq<string>, x: string)
    ensures Dedupe(xs + [x]) == if x in Dedupe(xs) then Dedupe(xs) else Dedupe(xs) + [x]
  {
    assert (xs + [x])[..|xs|] == xs;
  }

  lemma {:induction false} KeptSnoc(parts: seq<string>, i: nat)
    requires i < |parts|
    ensures Kept(parts[..i + 1]) == Kept(parts[..i]) + if TrimSpace(parts[i]) != "" then [TrimSpace(parts[i])] else []
  {
    assert parts[..i + 1][..i] == parts[..i];
  }

  /** The first half of the reference loop of reconcileIngress: explicit references. */
  method MergeExplicit(raw: string) returns (refs: seq<string>, seen: set<string>)
    ensures refs == Dedupe(Explicit(raw))
    ensures forall x :: x in seen <==> x in refs
  {
    refs, seen := [], {};
    var parts := SplitComma(raw);
    for i := 0 to |parts|
      invariant refs == Dedupe(Kept(parts[..i]))
      invariant forall x :: x in seen <==> x in refs
    {
      KeptSnoc(parts, i);
      var ref := TrimSpace(parts[i]);
      DedupeSnoc(Kept(parts[..i]), ref);
      if ref != "" && ref !in seen {
        refs := refs + [ref];
        seen := seen + {ref};
      }
      assert ref == "" ==> Kept(parts[..i + 1]) == Kept(parts[..i]);
    }
    assert parts[..|parts|] == parts;
  }

  /** The whole loop: the native references follow, each skipped when already seen. */
  method MergeChain(raw: string, native: seq<string>) returns (refs: seq<string>)
    ensures refs == ChainRefs(raw, native)
  {
    var seen;
    refs, seen := MergeExplicit(raw);
    ghost var ex := Explicit(raw);
    assert ex + native[..0] == ex;
    for i := 0 to |native|
      invariant refs == Dedupe(ex + native[..i])
      invariant forall x :: x in seen <==> x in refs
    {
      var ref := native[i];
      assert ex + native[..i + 1] == (ex + native[..i]) + [ref];
      DedupeSnoc(ex + native[..i], ref);
      if ref !in seen {
        refs := refs + [ref];
        seen := seen + {ref};
      }
    }
    assert native[..|native|] == native;
  }

  // ----- What the merge guarantees -----

  ghost function FirstIndex(xs: seq<string>, x: string): (i: nat)
    requires x in xs
    ensures i < |xs| && xs[i] == x && x !in xs[..i]
  {
    if xs[0] == x then 0 else
      assert x in xs[1..];
      var i := FirstIndex(xs[1..], x);
      assert xs[..i + 1] == [xs[0]] + xs[1..][..i];
      i + 1
  }

  /** Dedupe keeps every element once, ordered by where it first occurs. */
  lemma {:induction false} DedupeIsFirstOccurrences(xs: seq<string>)
    ensures Distinct(Dedupe(xs))
    ensures forall x :: x in Dedupe(xs) <==> x in xs
    ensures forall i, j :: 0 <= i < j < |Dedupe(xs)| ==>
              Dedupe(xs)[i] in xs && Dedupe(xs)[j] in xs &&
              FirstIndex(xs, Dedupe(xs)[i]) < FirstIndex(xs, Dedupe(xs)[j])
  {
    if xs != [] {
      var ys, z := xs[..|xs| - 1], xs[|xs| - 1];
      DedupeIsFirstOccurrences(ys);
      assert xs == ys + [z];
      var r := Dedupe(ys);
      forall x | x in ys
        ensures x in xs && FirstIndex(xs, x) == FirstIndex(ys, x)
      {
        FirstIndexUnique(xs, x, FirstIndex(ys, x));
      }
      if z !in r {
        assert FirstIndex(xs, z) == |ys| by { FirstIndexUnique(xs, z, |ys|); }
      }
    }
  }

  lemma {:induction false} FirstIndexUnique(xs: seq<string>, x: string, i: nat)
    requires i < |xs| && xs[i] == x && x !in xs[..i]
    ensures FirstIndex(xs, x) == i
  {
    var j := FirstIndex(xs, x);
    assert forall n :: 0 <= n < i ==> xs[n] == xs[..i][n];
    assert forall n :: 0 <= n < j ==> xs[n] == xs[..j][n];
  }

  lemma {:induction false} DedupeOfDistinct(xs: seq<string>)
    requires Distinct(xs)
    ensures Dedupe(xs) == xs
  {
    if xs != [] {
      DedupeOfDistinct(xs[..|xs| - 1]);
    }
  }

  lemma {:induction false} DedupeAbsorbs(xs: seq<string>, ys: seq<string>)
    requires forall y :: y in ys ==> y in xs
    ensures Dedupe(xs + ys) == Dedupe(xs)
  {
    if ys == [] {
      assert xs + ys == xs;
    } else {
      var zs := ys[..|ys| - 1];
      DedupeAbsorbs(xs, zs);
      assert (xs + ys)[..|xs + ys| - 1] == xs + zs;
      DedupeIsFirstOccurrences(xs);
    }
  }

  lemma {:induction false} KeptShape(parts: seq<string>)
    requires forall x :: x in parts ==> ',' !in x
    ensures forall x :: x in Kept(parts) ==> Clean(x)
    ensures (forall x :: x in parts ==> Clean(x)) ==> Kept(parts) == parts
  {
    if parts != [] {
      var init := parts[..|parts| - 1];
      assert forall x :: x in init ==> x in parts;
      KeptShape(init);
      var last := parts[|parts| - 1];
      TrimSpaceShape(last);
      assert last in parts;
      if forall x :: x in parts ==> Clean(x) {
        assert Kept(init) == init && TrimSpace(last) == last && last != "";
        assert init + [last] == parts;
      }
    }
  }

  lemma {:induction false} ChainIsClean(raw: string, native: seq<string>)
    requires forall x :: x in native ==> Clean(x)
    ensures forall x :: x in ChainRefs(raw, native) ==> Clean(x)
    ensures forall x :: x in native ==> x in ChainRefs(raw, native)
    ensures forall x :: x in ChainRefs(raw, native) <==> x in Explicit(raw) || x in native
  {
    SplitHasNoComma(raw);
    KeptShape(SplitComma(raw));
    DedupeIsFirstOccurrences(Explicit(raw) + native);
  }

  /** Re-splitting the written annotation gives back the chain. */
  lemma {:induction false} ChainResplits(raw: string, native: seq<string>)
    requires native != []
    requires forall x :: x in native ==> Clean(x)
    ensures Explicit(JoinComma(ChainRefs(raw, native))) == ChainRefs(raw, native)
  {
    var refs := ChainRefs(raw, native);
    ChainIsClean(raw, native);
    assert native[0] in refs;
    SplitJoin(refs);
    KeptShape(refs);
  }

  /** Merging the same native middlewares over the written annotation changes nothing, so
      references never accumulate, whatever the user wrote first. */
  lemma {:induction false} ChainIsFixedPoint(raw: string, native: seq<string>)
    requires native != []
    requires forall x :: x in native ==> Clean(x)
    ensures ChainRefs(JoinComma(ChainRefs(raw, native)), native) == ChainRefs(raw, native)
  {
    var refs := ChainRefs(raw, native);
    ChainResplits(raw, native);
    ChainIsClean(raw, native);
    DedupeIsFirstOccurrences(Explicit(raw) + native);
    DedupeAbsorbs(refs, native);
    DedupeOfDistinct(refs);
  }

  /** A Kubernetes name: no comma and no white space, as the API server demands of names. */
  predicate PlainName(s: string) {
    s != "" && forall c :: c in s ==> c != ',' && !IsSpace(c)
  }

  lemma {:induction false} MiddlewareNameHasNoComma(app: string, d: DomainSpec, kind: MiddlewareKind)
    requires PlainName(app)
    ensures ',' !in MiddlewareName(app, d.name, d.path, kind)
  {
    SanitizedShape(d.name);
    SanitizedShape(d.path);
    assert ',' !in Suffix(kind);
  }

  lemma {:induction false} NativeRefIsClean(ns: string, app: string, d: DomainSpec, kind: MiddlewareKind)
    requires PlainName(ns) && PlainName(app)
    ensures Clean(NativeRef(ns, app, d, kind))
  {
    MiddlewareNameHasNoComma(app, d, kind);
    CleanEnds(ns, MiddlewareName(app, d.name, d.path, kind));
  }

  lemma {:induction false} CleanEnds(ns: string, name: string)
    requires PlainName(ns) && ',' !in name
    ensures Clean(ns + "-" + name + "@kubernetescrd")
  {
    var ref := ns + "-" + name + "@kubernetescrd";
    assert ref[0] == ns[0] && ns[0] in ns;
    assert ref[|ref| - 1] == 'd';
  }

  /** Within a namespace a native reference names exactly one Middleware. */
  lemma {:induction false} NativeRefInjective(ns: string, app: string, d: DomainSpec, k: MiddlewareKind, app': string,
                                              e: DomainSpec, l: MiddlewareKind)
    ensures NativeRef(ns, app, d, k) == NativeRef(ns, app', e, l)
            <==> MiddlewareName(app, d.name, d.path, k) == MiddlewareName(app', e.name, e.path, l)
  {
    var m, n := MiddlewareName(app, d.name, d.path, k), MiddlewareName(app', e.name, e.path, l);
    var x, y := NativeRef(ns, app, d, k), NativeRef(ns, app', e, l);
    var tail := |"@kubernetescrd"|;
    assert x[|ns| + 1..|x| - tail] == m;
    assert y[|ns| + 1..|y| - tail] == n;
  }
}
