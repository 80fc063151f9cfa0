/**
 Object names: internal/controller/helpers.go.

 Strings are sequences of code points. Lower-casing follows Go's unicode.ToLower as far as it
 can be observed here: besides A-Z only U+0130 and U+212A lower to an ASCII letter, and every
 other rune outside [a-z0-9-] becomes a dash whatever its case.
 */
module Names {

  function LowerRune(c: char): char {
    if 'A' <= c <= 'Z' then (c as int + 32) as char
    else if c == '\U{0130}' then 'i'
    else if c == '\U{212A}' then 'k'
    else c
  }

  predicate DnsChar(c: char) {
    'a' <= c <= 'z' || '0' <= c <= '9' || c == '-'
  }

  function DnsRune(c: char): char {
    if DnsChar(LowerRune(c)) then LowerRune(c) else '-'
  }

  function DnsRunes(s: string): string {
    seq(|s|, i requires 0 <= i < |s| => DnsRune(s[i]))
  }

  function TrimLeft(s: string): string {
    if s != "" && s[0] == '-' then TrimLeft(s[1..]) else s
  }

  function TrimRight(s: string): string {
    if s != "" && s[|s| - 1] == '-' then TrimRight(s[..|s| - 1]) else s
  }

  /** sanitizeDNS: rune by rune replacement, then dashes trimmed from both ends. */
  function Sanitized(s: string): string {
    TrimRight(TrimLeft(DnsRunes(s)))
  }

  /** The builder loop of sanitizeDNS. */
  method SanitizeDns(s: string) returns (r: string)
    ensures r == Sanitized(s)
  {
    var b := "";
    for i := 0 to |s|
      invariant b == DnsRunes(s)[..i]
    {
      var c := LowerRune(s[i]);
      if 'a' <= c <= 'z' || '0' <= c <= '9' || c == '-' {
        b := b + [c];
      } else {
        b := b + ['-'];
      }
    }
    assert DnsRunes(s)[..|s|] == DnsRunes(s);
    r := TrimRight(TrimLeft(b));
  }

  predicate Bare(s: string) {
    s == "" || (s[0] != '-' && s[|s| - 1] != '-')
  }

  lemma {:induction false} TrimLeftShape(s: string)
    ensures TrimLeft(s) == "" || TrimLeft(s)[0] != '-'
    ensures forall c :: c in TrimLeft(s) ==> c in s
    ensures (s == "" || s[0] != '-') ==> TrimLeft(s) == s
  {
    if s != "" && s[0] == '-' {
      TrimLeftShape(s[1..]);
    }
  }

  lemma {:induction false} TrimRightShape(s: string)
    ensures TrimRight(s) == "" || TrimRight(s)[|TrimRight(s)| - 1] != '-'
    ensures TrimRight(s) != "" ==> TrimRight(s)[0] == s[0]
    ensures forall c :: c in TrimRight(s) ==> c in s
    ensures (s == "" || s[|s| - 1] != '-') ==> TrimRight(s) == s
  {
    if s != "" && s[|s| - 1] == '-' {
      TrimRightShape(s[..|s| - 1]);
    }
  }

  /** A sanitized name uses the DNS alphabet only and neither starts nor ends with a dash. */
  lemma {:induction false} SanitizedShape(s: string)
    ensures Bare(Sanitized(s))
    ensures forall c :: c in Sanitized(s) ==> DnsChar(c)
  {
    TrimLeftShape(DnsRunes(s));
    TrimRightShape(TrimLeft(DnsRunes(s)));
  }

  /** What becomes of one rune: a-z, 0-9 and dash stay, A-Z are lowered, as are the two other runes that lower to one
      of these, and everything else is a dash. */
  lemma {:induction false} RuneSpelled(c: char)
    ensures ('a' <= c <= 'z' || '0' <= c <= '9' || c == '-') ==> DnsRune(c) == c
    ensures 'A' <= c <= 'Z' ==> 'a' <= DnsRune(c) <= 'z' && DnsRune(c) as int - 'a' as int == c as int - 'A' as int
    ensures c == '\U{0130}' ==> DnsRune(c) == 'i'
    ensures c == '\U{212A}' ==> DnsRune(c) == 'k'
    ensures !('a' <= c <= 'z') && !('0' <= c <= '9') && !('A' <= c <= 'Z') && c != '\U{0130}' && c != '\U{212A}' ==>
              DnsRune(c) == '-'
  {
  }

  lemma {:induction false} AllDashes(p: string)
    requires forall c :: c in p ==> DnsRune(c) == '-'
    ensures forall c :: c in DnsRunes(p) ==> c == '-'
  {
    forall c | c in DnsRunes(p)
      ensures c == '-'
    {
      var i: nat :| i < |p| && DnsRunes(p)[i] == c;
      assert p[i] in p;
    }
  }

  lemma {:induction false} TrimLeftDashes(p: string, t: string)
    requires (forall c :: c in p ==> c == '-') && (t == "" || t[0] != '-')
    ensures TrimLeft(p + t) == t
  {
    if p == "" {
      assert p + t == t;
    } else {
      assert p[0] in p && (p + t)[1..] == p[1..] + t;
      assert forall c :: c in p[1..] ==> c in p;
      TrimLeftDashes(p[1..], t);
    }
  }

  lemma {:induction false} TrimRightDashes(t: string, q: string)
    requires (forall c :: c in q ==> c == '-') && (t == "" || t[|t| - 1] != '-')
    ensures TrimRight(t + q) == t
  {
    if q == "" {
      assert t + q == t;
    } else {
      var init := q[..|q| - 1];
      assert q[|q| - 1] in q && (t + q)[..|t + q| - 1] == t + init;
      assert forall c :: c in init ==> c in q;
      TrimRightDashes(t, init);
    }
  }

  /** Sanitizing, exactly: what becomes a dash at either end is dropped, and what lies between is replaced rune by
      rune. */
  lemma {:induction false} SanitizedExactly(p: string, s: string, q: string)
    requires (forall c :: c in p ==> DnsRune(c) == '-') && (forall c :: c in q ==> DnsRune(c) == '-')
    requires s == "" || (DnsRune(s[0]) != '-' && DnsRune(s[|s| - 1]) != '-')
    ensures |Sanitized(p + s + q)| == |s| && forall i :: 0 <= i < |s| ==> Sanitized(p + s + q)[i] == DnsRune(s[i])
  {
    DnsRunesAppend(p + s, q);
    DnsRunesAppend(p, s);
    AllDashes(p);
    AllDashes(q);
    var a, t, b := DnsRunes(p), DnsRunes(s), DnsRunes(q);
    assert a + t + b == a + (t + b);
    if s == "" {
      assert a + t + b == (a + b) + "";
      TrimLeftDashes(a + b, "");
    } else {
      TrimLeftDashes(a, t + b);
      TrimRightDashes(t, b);
    }
  }

  /** Sanitizing changes no name of that shape. */
  lemma {:induction false} SanitizedFixes(t: string)
    requires Bare(t) && forall c :: c in t ==> DnsChar(c)
    ensures Sanitized(t) == t
  {
    forall i | 0 <= i < |t|
      ensures DnsRune(t[i]) == t[i]
    {
      assert t[i] in t;
    }
    assert DnsRunes(t) == t;
    TrimLeftShape(t);
    TrimRightShape(t);
  }

  /** Sanitizing is idempotent, so a name derived from a sanitized part never drifts. */
  lemma {:induction false} SanitizedTwice(s: string)
    ensures Sanitized(Sanitized(s)) == Sanitized(s)
  {
    SanitizedShape(s);
    SanitizedFixes(Sanitized(s));
  }

  function Dashed(name: string, path: string): string {
    if path != "" then name + "-" + path else name
  }

  /** domainIngressName. */
  function DomainIngressName(app: string, domain: string, path: string): string {
    Dashed(app + "-" + Sanitized(domain), Sanitized(path))
  }

  /** The eight middleware kinds, in chain order. */
  datatype MiddlewareKind =
    | RedirectScheme | IpAllow | RateLimit | ForwardAuth | BasicAuth | Headers | Compress | Rewrite

  const KINDS: seq<MiddlewareKind> :=
    [RedirectScheme, IpAllow, RateLimit, ForwardAuth, BasicAuth, Headers, Compress, Rewrite]

  function Suffix(kind: MiddlewareKind): string {
    match kind
    case RedirectScheme => "redirectscheme"
    case IpAllow => "ipallow"
    case RateLimit => "ratelimit"
    case ForwardAuth => "forwardauth"
    case BasicAuth => "basicauth"
    case Headers => "headers"
    case Compress => "compress"
    case Rewrite => "rewrite"
  }

  /** middlewareName. */
  function MiddlewareName(app: string, domain: string, path: string, kind: MiddlewareKind): string {
    Dashed(app + "-" + Sanitized(domain), Sanitized(path)) + "-" + Suffix(kind)
  }

  /** No suffix contains a dash, and no two kinds share one. */
  lemma {:induction false} SuffixesAreSound(k: MiddlewareKind, l: MiddlewareKind)
    ensures '-' !in Suffix(k)
    ensures Suffix(k) == Suffix(l) ==> k == l
  {
    assert Suffix(k) == Suffix(l) ==> Suffix(k)[0] == Suffix(l)[0] && Suffix(k)[2] == Suffix(l)[2];
  }

  lemma {:induction false} DashBound(a: string, k: string, i: nat)
    requires '-' !in k
    requires i < |a + "-" + k| && (a + "-" + k)[i] == '-'
    ensures i <= |a|
  {
    var s := a + "-" + k;
    assert forall j :: |a| < j < |s| ==> s[j] == k[j - |a| - 1];
  }

  /** What follows the last dash of a string is determined by the string. */
  lemma {:induction false} LastDash(a: string, k: string, b: string, l: string)
    requires '-' !in k && '-' !in l
    requires a + "-" + k == b + "-" + l
    ensures a == b && k == l
  {
    assert (b + "-" + l)[|b|] == '-' && (a + "-" + k)[|a|] == '-';
    DashBound(a, k, |b|);
    DashBound(b, l, |a|);
    var s := a + "-" + k;
    assert s[..|a|] == a && s[..|a|] == b;
    assert s[|a| + 1..] == k && (b + "-" + l)[|b| + 1..] == l;
  }

  /** Two Middleware names of any apps, hosts and paths coincide exactly when the kinds and the
      Ingress names do, so a Middleware name identifies one Ingress and one kind. */
  lemma {:induction false} MiddlewareNamesAgree(a: string, d: string, p: string, k: MiddlewareKind,
                             b: string, e: string, q: string, l: MiddlewareKind)
    ensures MiddlewareName(a, d, p, k) == MiddlewareName(b, e, q, l)
            <==> k == l && DomainIngressName(a, d, p) == DomainIngressName(b, e, q)
  {
    SuffixesAreSound(k, l);
    SuffixesAreSound(l, k);
    if MiddlewareName(a, d, p, k) == MiddlewareName(b, e, q, l) {
      LastDash(DomainIngressName(a, d, p), Suffix(k), DomainIngressName(b, e, q), Suffix(l));
    }
  }

  /** On one host, Ingress names separate exactly the paths that sanitize differently. */
  lemma {:induction false} IngressNamesSeparatePaths(app: string, domain: string, p: string, q: string)
    ensures DomainIngressName(app, domain, p) == DomainIngressName(app, domain, q)
            <==> Sanitized(p) == Sanitized(q)
  {
    var base := app + "-" + Sanitized(domain);
    var x, y := Sanitized(p), Sanitized(q);
    if x != "" && y != "" && base + "-" + x == base + "-" + y {
      assert (base + "-" + x)[|base| + 1..] == x;
      assert (base + "-" + y)[|base| + 1..] == y;
    }
  }

  // ----- Which Ingress names collide -----

  /** x is s, a dash, and more. */
  predicate Continues(x: string, s: string) {
    |x| > |s| && x[..|s|] == s && x[|s|] == '-'
  }

  /** What follows s and the dash. */
  function After(x: string, s: string): string
    requires Continues(x, s)
  {
    x[|s| + 1..]
  }

  /** A string splits at a dash in one way, but for a dash inside the parts. */
  lemma {:induction false} DashSplits(x: string, y: string, z: string, w: string)
    ensures x + "-" + y == z + "-" + w <==>
              (x == z && y == w) ||
              (Continues(z, x) && y == After(z, x) + "-" + w) ||
              (Continues(x, z) && w == After(x, z) + "-" + y)
  {
    if x + "-" + y == z + "-" + w {
      if |x| <= |z| {
        DashSplit(x, y, z, w);
      } else {
        DashSplit(z, w, x, y);
      }
    }
    if Continues(z, x) {
      assert z == x + "-" + After(z, x);
    }
    if Continues(x, z) {
      assert x == z + "-" + After(x, z);
    }
  }

  lemma {:induction false} DashSplit(x: string, y: string, z: string, w: string)
    requires x + "-" + y == z + "-" + w && |x| <= |z|
    ensures if |x| == |z| then x == z && y == w else Continues(z, x) && y == After(z, x) + "-" + w
  {
    var s, t := x + "-" + y, z + "-" + w;
    assert s[..|x|] == x && t[..|z|] == z && t[..|x|] == z[..|x|];
    assert s[|x| + 1..] == y;
    if |x| == |z| {
      assert t[|z| + 1..] == w;
    } else {
      assert s[|x|] == '-' && t[|x|] == z[|x|];
      assert t[|x| + 1..] == z[|x| + 1..] + "-" + w;
    }
  }

  /** The host e ends with what the path p begins with, so that d with p reads like e with q. */
  predicate Shifted(d: string, p: string, e: string, q: string) {
    Continues(e, d) && p == Dashed(After(e, d), q)
  }

  lemma {:induction false} DashedAgree(d: string, p: string, e: string, q: string)
    requires Bare(d) && Bare(p) && Bare(e) && Bare(q)
    ensures Dashed(d, p) == Dashed(e, q) <==> (d == e && p == q) || Shifted(d, p, e, q) || Shifted(e, q, d, p)
  {
    DashSplits(d, p, e, q);
    if Continues(e, d) {
      assert e == d + "-" + After(e, d) && e[|e| - 1] != '-';
    }
    if Continues(d, e) {
      assert d == e + "-" + After(d, e) && d[|d| - 1] != '-';
    }
  }

  /** Two host and path pairs of one app share an Ingress name exactly when they sanitize alike, or the
      host of one continues the other's with just what the other's path begins with. */
  lemma {:induction false} IngressNamesAgree(app: string, d: string, p: string, e: string, q: string)
    ensures DomainIngressName(app, d, p) == DomainIngressName(app, e, q) <==>
              (Sanitized(d) == Sanitized(e) && Sanitized(p) == Sanitized(q)) ||
              Shifted(Sanitized(d), Sanitized(p), Sanitized(e), Sanitized(q)) ||
              Shifted(Sanitized(e), Sanitized(q), Sanitized(d), Sanitized(p))
  {
    SanitizedShape(d);
    SanitizedShape(p);
    SanitizedShape(e);
    SanitizedShape(q);
    DashedAgree(Sanitized(d), Sanitized(p), Sanitized(e), Sanitized(q));
    NamePrefix(app, Sanitized(d), Sanitized(p));
    NamePrefix(app, Sanitized(e), Sanitized(q));
    SamePrefix(app, Dashed(Sanitized(d), Sanitized(p)), Dashed(Sanitized(e), Sanitized(q)));
  }

  lemma {:induction false} NamePrefix(app: string, d: string, p: string)
    ensures Dashed(app + "-" + d, p) == app + "-" + Dashed(d, p)
  {
  }

  lemma {:induction false} SamePrefix(app: string, x: string, y: string)
    ensures app + "-" + x == app + "-" + y <==> x == y
  {
    assert (app + "-" + x)[|app| + 1..] == x && (app + "-" + y)[|app| + 1..] == y;
  }

  /** Host e continues host d by a name of its own. */
  predicate Nested(d: string, e: string) {
    Continues(e, d) && After(e, d) != "" && Bare(After(e, d))
  }

  /** A path that the resource definition admits. */
  predicate ValidPath(p: string) {
    p == "" || p[0] == '/'
  }

  /** Two hosts have paths on which they collide exactly when they sanitize alike or one continues the other;
      all other hosts of an app can be used together whatever their paths. */
  lemma {:induction false} HostsThatCollide(app: string, d: string, e: string)
    ensures (exists p, q ::
               ValidPath(p) && ValidPath(q) && DomainIngressName(app, d, p) == DomainIngressName(app, e, q)) <==>
              Sanitized(d) == Sanitized(e) || Nested(Sanitized(d), Sanitized(e)) || Nested(Sanitized(e), Sanitized(d))
  {
    var x, y := Sanitized(d), Sanitized(e);
    if p, q :| ValidPath(p) && ValidPath(q) && DomainIngressName(app, d, p) == DomainIngressName(app, e, q) {
      IngressNamesAgree(app, d, p, e, q);
      if Shifted(x, Sanitized(p), y, Sanitized(q)) {
        ShiftedIsNested(d, p, e, q);
      }
      if Shifted(y, Sanitized(q), x, Sanitized(p)) {
        ShiftedIsNested(e, q, d, p);
      }
    }
    if x == y {
      assert ValidPath("") && DomainIngressName(app, d, "") == DomainIngressName(app, e, "");
    }
    if Nested(x, y) {
      NestedCollide(app, d, e);
      assert ValidPath("/" + After(y, x)) && ValidPath("");
    }
    if Nested(y, x) {
      NestedCollide(app, e, d);
      assert ValidPath("") && ValidPath("/" + After(x, y));
      assert DomainIngressName(app, d, "") == DomainIngressName(app, e, "/" + After(x, y));
    }
  }

  lemma {:induction false} ShiftedIsNested(d: string, p: string, e: string, q: string)
    requires Shifted(Sanitized(d), Sanitized(p), Sanitized(e), Sanitized(q))
    ensures Nested(Sanitized(d), Sanitized(e))
  {
    var x, y := Sanitized(d), Sanitized(e);
    SanitizedShape(e);
    SanitizedShape(p);
    var r := After(y, x);
    assert y == x + "-" + r;
    assert y[|y| - 1] != '-';
    assert r != "" && r[|r| - 1] == y[|y| - 1];
    assert Sanitized(p)[0] == r[0];
  }

  /** A leading slash does not show in a name. */
  lemma {:induction false} SanitizedSlash(r: string)
    requires Bare(r) && forall c :: c in r ==> DnsChar(c)
    ensures Sanitized("/" + r) == r
  {
    SanitizedFixes(r);
    DnsRunesAppend("/", r);
    assert DnsRunes("/") == "-";
    assert ("-" + DnsRunes(r))[1..] == DnsRunes(r);
  }

  lemma {:induction false} NestedCollide(app: string, d: string, e: string)
    requires Nested(Sanitized(d), Sanitized(e))
    ensures DomainIngressName(app, d, "/" + After(Sanitized(e), Sanitized(d))) == DomainIngressName(app, e, "")
  {
    var r := After(Sanitized(e), Sanitized(d));
    SanitizedShape(e);
    assert forall c :: c in r ==> c in Sanitized(e);
    SanitizedSlash(r);
    IngressNamesAgree(app, d, "/" + r, e, "");
  }

  /** For instance "a/b" and "a-b" on the root path share one Ingress name. */
  lemma {:induction false} IngressNamesCanCollide(app: string)
    ensures DomainIngressName(app, "a", "/b") == DomainIngressName(app, "a-b", "/")
  {
    assert DnsRunes("a") == "a" && DnsRunes("/b") == "-b" && DnsRunes("a-b") == "a-b" && DnsRunes("/") == "-";
    assert TrimLeft("-b") == TrimLeft("b") == "b" by { assert "-b"[1..] == "b"; }
    assert TrimLeft("-") == TrimLeft("") by { assert "-"[1..] == ""; }
    assert app + "-" + "a" + "-" + "b" == app + "-" + "a-b";
  }

  /** Two apps share an Ingress name exactly when they have one name and their pairs collide, or the name of
      one continues the other's with just what the other's host and path begin with. */
  lemma {:induction false} IngressNamesAcrossApps(a: string, d: string, p: string, b: string, e: string, q: string)
    ensures var x, y := Dashed(Sanitized(d), Sanitized(p)), Dashed(Sanitized(e), Sanitized(q));
            DomainIngressName(a, d, p) == DomainIngressName(b, e, q) <==>
              (a == b && x == y) ||
              (Continues(b, a) && x == After(b, a) + "-" + y) ||
              (Continues(a, b) && y == After(a, b) + "-" + x)
  {
    NamePrefix(a, Sanitized(d), Sanitized(p));
    NamePrefix(b, Sanitized(e), Sanitized(q));
    DashSplits(a, Dashed(Sanitized(d), Sanitized(p)), b, Dashed(Sanitized(e), Sanitized(q)));
  }

  /** For every app, every label and every host that does not begin with a dash once sanitized there is such a
      pair: an app named after the first app and the label that its host has in front. */
  lemma {:induction false} AppsThatCollide(a: string, r: string, d: string)
    requires Bare(r) && r != "" && forall c :: c in r ==> DnsChar(c)
    requires d != "" && DnsRune(d[0]) != '-'
    ensures DomainIngressName(a, r + "." + d, "") == DomainIngressName(a + "-" + r, d, "")
  {
    SanitizedDot(r, d);
  }

  lemma {:induction false} DnsRunesAppend(x: string, y: string)
    ensures DnsRunes(x + y) == DnsRunes(x) + DnsRunes(y)
  {
  }

  lemma {:induction false} TrimRightKeeps(x: string, t: string)
    requires t != "" && t[0] != '-'
    ensures TrimRight(x + t) == x + TrimRight(t)
  {
    if t[|t| - 1] == '-' {
      TrimRightKeeps(x, t[..|t| - 1]);
      assert (x + t)[..|x + t| - 1] == x + t[..|t| - 1];
    }
  }

  lemma {:induction false} SanitizedDot(r: string, d: string)
    requires Bare(r) && r != "" && forall c :: c in r ==> DnsChar(c)
    requires d != "" && DnsRune(d[0]) != '-'
    ensures Sanitized(r + "." + d) == r + "-" + Sanitized(d)
  {
    var t := DnsRunes(d);
    forall i | 0 <= i < |r|
      ensures DnsRune(r[i]) == r[i]
    {
      assert r[i] in r;
    }
    assert DnsRunes(r) == r && DnsRunes(".") == "-";
    DnsRunesAppend(r + ".", d);
    DnsRunesAppend(r, ".");
    TrimLeftShape(r + "-" + t);
    TrimLeftShape(t);
    TrimRightKeeps(r + "-", t);
  }
}
