/**
 The byte stream that internal/controller/reconcile_deployment.go feeds to SHA-256 for the pod
 template annotations, and a decoder that recovers the data from it.

 Go compares strings byte by byte, which on UTF-8 is code point order. sort.Slice is modelled by
 an insertion sort; on names without repetition every sort gives that result.
 */
module ConfigHash {
  import opened Common
  import opened Spec

  /** A named value: a data key with its text, or an entry name with its data. */
  datatype Item<T> = Item(key: string, val: T)

  // ----- Sorting by key -----

  predicate Less(a: string, b: string) {
    b != "" && (a == "" || a[0] < b[0] || (a[0] == b[0] && Less(a[1..], b[1..])))
  }

  lemma {:induction false} LessIsTotalOrder(a: string, b: string, c: string)
    ensures !Less(a, a)
    ensures Less(a, b) || a == b || Less(b, a)
    ensures Less(a, b) && Less(b, c) ==> Less(a, c)
  {
    if a != "" {
      var b' := if b == "" then "" else b[1..];
      var c' := if c == "" then "" else c[1..];
      LessIsTotalOrder(a[1..], b', c');
    }
  }

  function Insert<T(!new)>(x: Item<T>, xs: seq<Item<T>>): seq<Item<T>> {
    if xs == [] || !Less(xs[0].key, x.key) then [x] + xs else [xs[0]] + Insert(x, xs[1..])
  }

  function Sort<T(!new)>(xs: seq<Item<T>>): seq<Item<T>> {
    if xs == [] then [] else Insert(xs[0], Sort(xs[1..]))
  }

  predicate Ascending<T(!new)>(xs: seq<Item<T>>) {
    forall i, j :: 0 <= i < j < |xs| ==> Less(xs[i].key, xs[j].key)
  }

  predicate UniqueKeys<T(!new)>(xs: seq<Item<T>>) {
    forall i, j :: 0 <= i < j < |xs| ==> xs[i].key != xs[j].key
  }

  lemma {:induction false} AscendingTail<T(!new)>(xs: seq<Item<T>>)
    requires Ascending(xs) && xs != []
    ensures Ascending(xs[1..])
    ensures forall y :: y in xs[1..] ==> y in xs && Less(xs[0].key, y.key)
    ensures forall y :: y in xs <==> y == xs[0] || y in xs[1..]
    ensures xs[0] !in xs[1..]
  {
    assert xs == [xs[0]] + xs[1..];
    forall y | y in xs[1..]
      ensures y in xs && Less(xs[0].key, y.key)
    {
      var j: nat :| j < |xs[1..]| && xs[1..][j] == y;
      assert xs[j + 1] == y;
    }
    LessIsTotalOrder(xs[0].key, xs[0].key, xs[0].key);
  }

  lemma {:induction false} InsertShape<T(!new)>(x: Item<T>, xs: seq<Item<T>>)
    requires Ascending(xs)
    requires forall y :: y in xs ==> y.key != x.key
    ensures Ascending(Insert(x, xs))
    ensures forall y :: y in Insert(x, xs) <==> y == x || y in xs
  {
    if xs != [] {
      AscendingTail(xs);
      LessIsTotalOrder(x.key, xs[0].key, xs[0].key);
      if !Less(xs[0].key, x.key) {
        assert xs[0] in xs;
        forall i | 0 <= i < |xs|
          ensures Less(x.key, xs[i].key)
        {
          LessIsTotalOrder(x.key, xs[0].key, xs[i].key);
        }
      } else {
        InsertShape(x, xs[1..]);
        var r := Insert(x, xs[1..]);
        forall i | 0 <= i < |r|
          ensures Less(xs[0].key, r[i].key)
        {
          var y := r[i];
          assert y in r;
          assert y == x || y in xs[1..];
        }
        assert Insert(x, xs) == [xs[0]] + r;
      }
    }
  }

  lemma {:induction false} UniqueTail<T(!new)>(xs: seq<Item<T>>)
    requires UniqueKeys(xs) && xs != []
    ensures UniqueKeys(xs[1..])
    ensures forall y :: y in xs[1..] ==> y in xs && y.key != xs[0].key
    ensures forall y :: y in xs <==> y == xs[0] || y in xs[1..]
  {
    assert xs == [xs[0]] + xs[1..];
    forall y | y in xs[1..]
      ensures y in xs && y.key != xs[0].key
    {
      var j: nat :| j < |xs[1..]| && xs[1..][j] == y;
      assert xs[j + 1] == y;
    }
  }

  lemma {:induction false} SortShape<T(!new)>(xs: seq<Item<T>>)
    requires UniqueKeys(xs)
    ensures Ascending(Sort(xs))
    ensures forall y :: y in Sort(xs) <==> y in xs
  {
    if xs != [] {
      UniqueTail(xs);
      SortShape(xs[1..]);
      var r := Sort(xs[1..]);
      forall y | y in r
        ensures y.key != xs[0].key
      {
        assert y in Sort(xs[1..]);
        assert y in xs[1..];
      }
      InsertShape(xs[0], r);
    }
  }

  /** Two ascending sequences with the same elements are the same sequence. */
  lemma {:induction false} AscendingIsUnique<T(!new)>(xs: seq<Item<T>>, ys: seq<Item<T>>)
    requires Ascending(xs) && Ascending(ys)
    requires forall x :: x in xs <==> x in ys
    ensures xs == ys
  {
    assert xs != [] ==> xs[0] in ys;
    assert ys != [] ==> ys[0] in xs;
    if xs != [] && ys != [] {
      AscendingTail(xs);
      AscendingTail(ys);
      LessIsTotalOrder(xs[0].key, ys[0].key, xs[0].key);
      LessIsTotalOrder(xs[0].key, xs[0].key, xs[0].key);
      assert xs[0] == ys[0];
      AscendingIsUnique(xs[1..], ys[1..]);
      assert xs == [xs[0]] + xs[1..];
    }
  }

  // ----- Maps as item lists -----

  /** The map a list of items spells out; an earlier item wins over a later one of the same key. */
  function ItemMap<T(!new)>(xs: seq<Item<T>>): map<string, T> {
    if xs == [] then map[] else ItemMap(xs[1..])[xs[0].key := xs[0].val]
  }

  lemma {:induction false} ItemMapShape<T(!new)>(xs: seq<Item<T>>)
    requires UniqueKeys(xs)
    ensures forall x :: x in xs <==> x.key in ItemMap(xs) && ItemMap(xs)[x.key] == x.val
    ensures forall k :: k in ItemMap(xs) ==> Item(k, ItemMap(xs)[k]) in xs
  {
    if xs != [] {
      UniqueTail(xs);
      ItemMapShape(xs[1..]);
    }
  }

  /** Unique items and the map they spell determine each other up to order. */
  lemma {:induction false} ItemMapSameElements<T(!new)>(xs: seq<Item<T>>, ys: seq<Item<T>>)
    requires UniqueKeys(xs) && UniqueKeys(ys)
    ensures ItemMap(xs) == ItemMap(ys) <==> (forall x :: x in xs <==> x in ys)
  {
    ItemMapShape(xs);
    ItemMapShape(ys);
    if forall x :: x in xs <==> x in ys {
      MapsByItems(ItemMap(xs), ItemMap(ys));
    }
  }

  lemma {:induction false} MapsByItems<T(!new)>(m: map<string, T>, n: map<string, T>)
    requires forall x: Item<T> :: (x.key in m && m[x.key] == x.val) <==> (x.key in n && n[x.key] == x.val)
    ensures m == n
  {
    forall k
      ensures k in m <==> k in n
      ensures k in m ==> m[k] == n[k]
    {
      if k in m {
        assert Item(k, m[k]).key in n;
      }
      if k in n {
        assert Item(k, n[k]).key in m;
      }
    }
  }

  lemma {:induction false} AscendingHasUniqueKeys<T(!new)>(xs: seq<Item<T>>)
    requires Ascending(xs)
    ensures UniqueKeys(xs)
  {
    forall i, j | 0 <= i < j < |xs|
      ensures xs[i].key != xs[j].key
    {
      LessIsTotalOrder(xs[i].key, xs[j].key, xs[i].key);
    }
  }

  /** A data map as its items in key order. */
  ghost function Listed(m: map<string, string>): (xs: seq<Item<string>>)
    ensures Ascending(xs)
    ensures forall x :: x in xs <==> x.key in m && m[x.key] == x.val
    decreases m.Keys
  {
    if m == map[] then []
    else
      var k :| k in m;
      var rest := m - {k};
      assert k in m.Keys && k !in rest.Keys;
      InsertShape(Item(k, m[k]), Listed(rest));
      Insert(Item(k, m[k]), Listed(rest))
  }

  lemma {:induction false} ListedSpells(m: map<string, string>)
    ensures ItemMap(Listed(m)) == m
  {
    AscendingHasUniqueKeys(Listed(m));
    ItemMapShape(Listed(m));
    MapsByItems(ItemMap(Listed(m)), m);
  }

  /** Whatever order the keys of a map are visited in, sorting yields its listing. */
  lemma {:induction false} AnyIterationOrder(m: map<string, string>, visited: seq<Item<string>>)
    requires UniqueKeys(visited)
    requires forall x :: x in visited <==> x.key in m && m[x.key] == x.val
    ensures Sort(visited) == Listed(m)
  {
    SortShape(visited);
    AscendingIsUnique(Sort(visited), Listed(m));
  }

  // ----- The stream -----

  datatype Section = Section(header: string, items: seq<Item<string>>)

  function Lines(xs: seq<Item<string>>): seq<string> {
    if xs == [] then [] else [xs[0].key + "=" + xs[0].val] + Lines(xs[1..])
  }

  function AllLines(secs: seq<Section>): seq<string> {
    if secs == [] then [] else [secs[0].header] + (Lines(secs[0].items) + AllLines(secs[1..]))
  }

  function Bytes(lines: seq<string>): string {
    if lines == [] then "" else lines[0] + "\n" + Bytes(lines[1..])
  }

  function CmItems(cms: seq<ConfigMapMount>): seq<Item<map<string, string>>> {
    seq(|cms|, i requires 0 <= i < |cms| => Item(cms[i].name, cms[i].data))
  }

  function SecretItems(secs: seq<SecretMount>): seq<Item<map<string, string>>> {
    seq(|secs|, i requires 0 <= i < |secs| =>
      Item(secs[i].name, if secs[i].data.Some? then secs[i].data.value else map[]))
  }

  ghost function CmSections(xs: seq<Item<map<string, string>>>): seq<Section> {
    if xs == [] then [] else [Section("cm:" + xs[0].key, Listed(xs[0].val))] + CmSections(xs[1..])
  }

  ghost function SecretSections(xs: seq<Item<map<string, string>>>): seq<Section> {
    if xs == [] then []
    else if xs[0].val == map[] then SecretSections(xs[1..])
    else [Section("secret:" + xs[0].key, Listed(xs[0].val))] + SecretSections(xs[1..])
  }

  ghost function Sections(spec: AppSpec): seq<Section> {
    CmSections(Sort(CmItems(spec.configMaps))) + SecretSections(Sort(SecretItems(spec.secrets)))
  }

  predicate HasInlineData(secs: seq<SecretMount>) {
    exists i :: 0 <= i < |secs| && secs[i].data.Some? && secs[i].data.value != map[]
  }

  /** What computeConfigHash hashes; None stands for the empty result. */
  ghost function ConfigStream(spec: AppSpec): Option<string> {
    if spec.configMaps == [] && !HasInlineData(spec.secrets) then None
    else Some(Bytes(AllLines(Sections(spec))))
  }

  lemma {:induction false} BytesAppend(a: seq<string>, b: seq<string>)
    ensures Bytes(a + b) == Bytes(a) + Bytes(b)
  {
    if a == [] {
      assert a + b == b;
    } else {
      assert (a + b)[1..] == a[1..] + b;
      BytesAppend(a[1..], b);
    }
  }

  lemma {:induction false} LinesSnoc(xs: seq<Item<string>>, x: Item<string>)
    ensures Lines(xs + [x]) == Lines(xs) + [x.key + "=" + x.val]
  {
    if xs != [] {
      assert (xs + [x])[1..] == xs[1..] + [x];
      LinesSnoc(xs[1..], x);
    }
  }

  /** The keys of a map in whatever order they are visited, then sorted. */
  method SortedItems(data: map<string, string>) returns (sorted: seq<Item<string>>)
    ensures sorted == Listed(data)
  {
    var keys: seq<Item<string>> := [];
    var todo := data.Keys;
    while todo != {}
      invariant todo <= data.Keys
      invariant forall x :: x in keys <==> x.key in data.Keys - todo && data[x.key] == x.val
      invariant UniqueKeys(keys)
      decreases todo
    {
      var k :| k in todo;
      keys := keys + [Item(k, data[k])];
      todo := todo - {k};
    }
    AnyIterationOrder(data, keys);
    sorted := Sort(keys);
  }

  /** One more line of a block. */
  lemma {:induction false} BlockSnoc(header: string, xs: seq<Item<string>>, i: nat)
    requires i < |xs|
    ensures Bytes([header] + Lines(xs[..i + 1])) ==
              Bytes([header] + Lines(xs[..i])) + (xs[i].key + "=" + xs[i].val + "\n")
  {
    var line := xs[i].key + "=" + xs[i].val;
    assert xs[..i + 1] == xs[..i] + [xs[i]];
    LinesSnoc(xs[..i], xs[i]);
    assert [header] + (Lines(xs[..i]) + [line]) == ([header] + Lines(xs[..i])) + [line];
    BytesAppend([header] + Lines(xs[..i]), [line]);
    assert [line][1..] == [];
  }

  /** One "name, then its data" block, written key by key in sorted order. */
  method WriteSection(h: string, header: string, data: map<string, string>) returns (h': string)
    ensures h' == h + Bytes([header] + Lines(Listed(data)))
  {
    var sorted := SortedItems(data);
    var block := header + "\n";
    assert Bytes([header]) == block;
    for i := 0 to |sorted|
      invariant block == Bytes([header] + Lines(sorted[..i]))
    {
      BlockSnoc(header, sorted, i);
      block := block + (sorted[i].key + "=" + sorted[i].val + "\n");
    }
    assert sorted[..|sorted|] == sorted;
    h' := h + block;
  }

  lemma {:induction false} Regroup(h: seq<string>, l: seq<string>, x: seq<string>, y: seq<string>)
    ensures h + (l + (x + y)) == (h + (l + x)) + y
  {
  }

  lemma {:induction false} AllLinesAppend(a: seq<Section>, b: seq<Section>)
    ensures AllLines(a + b) == AllLines(a) + AllLines(b)
  {
    if a == [] {
      assert a + b == b;
    } else {
      assert (a + b)[1..] == a[1..] + b;
      AllLinesAppend(a[1..], b);
      Regroup([a[0].header], Lines(a[0].items), AllLines(a[1..]), AllLines(b));
    }
  }

  lemma {:induction false} CmSectionsSnoc(xs: seq<Item<map<string, string>>>, x: Item<map<string, string>>)
    ensures CmSections(xs + [x]) == CmSections(xs) + [Section("cm:" + x.key, Listed(x.val))]
  {
    if xs != [] {
      assert (xs + [x])[1..] == xs[1..] + [x];
      CmSectionsSnoc(xs[1..], x);
    }
  }

  lemma {:induction false} SecretSectionsSnoc(xs: seq<Item<map<string, string>>>, x: Item<map<string, string>>)
    ensures SecretSections(xs + [x])
            == SecretSections(xs) + if x.val == map[] then [] else [Section("secret:" + x.key, Listed(x.val))]
  {
    if xs != [] {
      assert (xs + [x])[1..] == xs[1..] + [x];
      SecretSectionsSnoc(xs[1..], x);
    }
  }

  /** Writing one more section appends its lines to the stream so far. */
  lemma {:induction false} StreamSnoc(done: seq<Section>, sec: Section)
    ensures Bytes(AllLines(done + [sec])) == Bytes(AllLines(done)) + Bytes([sec.header] + Lines(sec.items))
  {
    AllLinesAppend(done, [sec]);
    assert AllLines([sec]) == [sec.header] + Lines(sec.items) by { assert Lines(sec.items) + [] == Lines(sec.items); }
    BytesAppend(AllLines(done), AllLines([sec]));
  }

  method WriteConfigMaps(cms: seq<Item<map<string, string>>>) returns (h: string)
    ensures h == Bytes(AllLines(CmSections(cms)))
  {
    h := "";
    for i := 0 to |cms|
      invariant h == Bytes(AllLines(CmSections(cms[..i])))
    {
      assert cms[..i + 1] == cms[..i] + [cms[i]];
      CmSectionsSnoc(cms[..i], cms[i]);
      StreamSnoc(CmSections(cms[..i]), Section("cm:" + cms[i].key, Listed(cms[i].val)));
      h := WriteSection(h, "cm:" + cms[i].key, cms[i].val);
    }
    assert cms[..|cms|] == cms;
  }

  lemma {:induction false} SecretStreamSnoc(before: seq<Section>, secs: seq<Item<map<string, string>>>, i: nat)
    requires i < |secs|
    ensures Bytes(AllLines(before + SecretSections(secs[..i + 1])))
            == if secs[i].val == map[] then Bytes(AllLines(before + SecretSections(secs[..i])))
               else Bytes(AllLines(before + SecretSections(secs[..i]))) +
                    Bytes(["secret:" + secs[i].key] + Lines(Listed(secs[i].val)))
  {
    assert secs[..i + 1] == secs[..i] + [secs[i]];
    SecretSectionsSnoc(secs[..i], secs[i]);
    var now := before + SecretSections(secs[..i]);
    if secs[i].val == map[] {
      assert SecretSections(secs[..i + 1]) == SecretSections(secs[..i]);
    } else {
      var section := Section("secret:" + secs[i].key, Listed(secs[i].val));
      assert before + SecretSections(secs[..i + 1]) == now + [section];
      StreamSnoc(now, section);
    }
  }

  method WriteSecrets(h: string, secs: seq<Item<map<string, string>>>, ghost before: seq<Section>) returns (h': string)
    requires h == Bytes(AllLines(before))
    ensures h' == Bytes(AllLines(before + SecretSections(secs)))
  {
    h' := h;
    assert before + SecretSections(secs[..0]) == before;
    for i := 0 to |secs|
      invariant h' == Bytes(AllLines(before + SecretSections(secs[..i])))
    {
      SecretStreamSnoc(before, secs, i);
      if secs[i].val != map[] {
        h' := WriteSection(h', "secret:" + secs[i].key, secs[i].val);
      }
    }
    assert secs[..|secs|] == secs;
  }

  /** computeConfigHash up to the final digest. */
  method ComputeConfigStream(spec: AppSpec) returns (r: Option<string>)
    ensures r == ConfigStream(spec)
  {
    var hasInlineData := false;
    for i := 0 to |spec.secrets|
      invariant hasInlineData <==>
                  exists j :: 0 <= j < i && spec.secrets[j].data.Some? && spec.secrets[j].data.value != map[]
    {
      if spec.secrets[i].data.Some? && spec.secrets[i].data.value != map[] {
        hasInlineData := true;
      }
    }
    if spec.configMaps == [] && !hasInlineData {
      return None;
    }
    var cms := Sort(CmItems(spec.configMaps));
    var h := WriteConfigMaps(cms);
    var secs := Sort(SecretItems(spec.secrets));
    h := WriteSecrets(h, secs, CmSections(cms));
    r := Some(h);
  }

  // ----- The decoder -----

  /** Puts a character in front of some lines. */
  function Glue(c: char, lines: seq<string>): (r: seq<string>)
    ensures r != []
  {
    if c == '\n' then [""] + lines
    else if lines == [] then [[c]]
    else [[c] + lines[0]] + lines[1..]
  }

  function UnBytes(s: string): seq<string> {
    if s == "" then [] else Glue(s[0], UnBytes(s[1..]))
  }

  /** What a stream may be made of: its header lines, and the keys of its data. */
  datatype Words = Words(heads: set<string>, keys: set<string>)

  function Union(v: Words, w: Words): Words {
    Words(v.heads + w.heads, v.keys + w.keys)
  }

  /** The line is a header, or a key with its value. */
  predicate Opens(line: string, w: Words) {
    line in w.heads || ('=' in line && BeforeEquals(line) in w.keys)
  }

  /** The line goes on with the value above it. */
  predicate Continuing(line: string, w: Words) {
    !Opens(line, w)
  }

  /** Joins every line with those that continue it. */
  function Rejoined(lines: seq<string>, w: Words): seq<string> {
    if lines == [] then []
    else
      var r := Rejoined(lines[1..], w);
      if r != [] && Continuing(r[0], w) then [lines[0] + "\n" + r[0]] + r[1..] else [lines[0]] + r
  }

  function BeforeEquals(line: string): string {
    if line == "" || line[0] == '=' then "" else [line[0]] + BeforeEquals(line[1..])
  }

  function ParseItem(line: string): Item<string>
    requires '=' in line
  {
    var k := BeforeEquals(line);
    if |k| < |line| then Item(k, line[|k| + 1..]) else Item(k, "")
  }

  datatype Parsed = Parsed(pending: seq<Item<string>>, sections: seq<Section>)

  function Parse(lines: seq<string>): Parsed {
    if lines == [] then Parsed([], [])
    else
      var r := Parse(lines[1..]);
      if '=' in lines[0] then r.(pending := [ParseItem(lines[0])] + r.pending)
      else Parsed([], [Section(lines[0], r.pending)] + r.sections)
  }

  datatype ConfigData = ConfigData(configMaps: map<string, map<string, string>>,
                                   secrets: map<string, map<string, string>>)

  function Gather(secs: seq<Section>): ConfigData {
    if secs == [] then ConfigData(map[], map[])
    else
      var r := Gather(secs[1..]);
      var h := secs[0].header;
      var data := ItemMap(secs[0].items);
      if StartsWith(h, "cm:") then r.(configMaps := r.configMaps[h[|"cm:"|..] := data])
      else if StartsWith(h, "secret:") then r.(secrets := r.secrets[h[|"secret:"|..] := data])
      else r
  }

  /** Recovers the data behind a stream. */
  function Decode(stream: string, w: Words): ConfigData {
    Gather(Parse(Rejoined(UnBytes(stream), w)).sections)
  }

  /** The inline data a spec declares; a secret without data declares none. */
  function Declared(spec: AppSpec): ConfigData {
    var secrets := ItemMap(SecretItems(spec.secrets));
    ConfigData(ItemMap(CmItems(spec.configMaps)), WithoutEmpty(secrets))
  }

  predicate OneLine(s: string) {
    '\n' !in s
  }

  predicate CleanKey(s: string) {
    '=' !in s && OneLine(s)
  }

  function SplitLines(s: string): (r: seq<string>)
    ensures r != []
  {
    if s == "" then [""] else Glue(s[0], SplitLines(s[1..]))
  }

  /** Every line of the value but the first shows itself to continue it. */
  predicate Tidy(v: string, w: Words) {
    forall i :: 1 <= i < |SplitLines(v)| ==> Continuing(SplitLines(v)[i], w)
  }

  predicate CleanData(m: map<string, string>, w: Words) {
    forall k :: k in m ==> CleanKey(k) && k in w.keys && Tidy(m[k], w)
  }

  predicate CleanItems(head: string, xs: seq<Item<map<string, string>>>, w: Words) {
    forall x :: x in xs ==> CleanKey(x.key) && head + x.key in w.heads && CleanData(x.val, w)
  }

  predicate PlainWords(w: Words) {
    (forall h :: h in w.heads ==> OneLine(h)) && (forall k :: k in w.keys ==> OneLine(k))
  }

  /** Entry names are unique, no name or key holds '=' or a newline, and no line of a value after its first is a
      header line or begins with a key and '=', among the headers and keys w that come into question. */
  ghost predicate Readable(spec: AppSpec, w: Words) {
    UniqueKeys(CmItems(spec.configMaps)) && CleanItems("cm:", CmItems(spec.configMaps), w) &&
    UniqueKeys(SecretItems(spec.secrets)) && CleanItems("secret:", SecretItems(spec.secrets), w) && PlainWords(w)
  }

  /** The header lines and keys of a spec. */
  ghost function ConfigWords(spec: AppSpec): Words {
    var cms, secs := CmItems(spec.configMaps), SecretItems(spec.secrets);
    Words((set x | x in cms :: "cm:" + x.key) + (set x | x in secs :: "secret:" + x.key),
          (set x, k | x in cms && k in x.val :: k) + (set x, k | x in secs && k in x.val :: k))
  }

  lemma {:induction false} SplitPrepend(line: string, s: string)
    requires OneLine(line)
    ensures SplitLines(line + s) == [line + SplitLines(s)[0]] + SplitLines(s)[1..]
  {
    if line == "" {
      assert line + s == s && line + SplitLines(s)[0] == SplitLines(s)[0];
    } else {
      SplitPrepend(line[1..], s);
      assert (line + s)[1..] == line[1..] + s;
      assert [line[0]] + (line[1..] + SplitLines(s)[0]) == line + SplitLines(s)[0];
    }
  }

  lemma {:induction false} OneLineIsTidy(line: string, w: Words)
    requires OneLine(line)
    ensures SplitLines(line) == [line] && Tidy(line, w)
  {
    SplitPrepend(line, "");
    assert line + "" == line;
  }

  lemma {:induction false} GlueAppend(c: char, lines: seq<string>, more: seq<string>)
    requires lines != []
    ensures Glue(c, lines + more) == Glue(c, lines) + more
  {
    assert (lines + more)[1..] == lines[1..] + more;
  }

  /** The bytes of one line, which may itself span several, split into them. */
  lemma {:induction false} UnBytesPrepend(line: string, s: string)
    ensures UnBytes(line + "\n" + s) == SplitLines(line) + UnBytes(s)
  {
    if line == "" {
      assert line + "\n" + s == "\n" + s;
      assert ("\n" + s)[1..] == s;
    } else {
      UnBytesPrepend(line[1..], s);
      assert (line + "\n" + s)[1..] == line[1..] + "\n" + s;
      GlueAppend(line[0], SplitLines(line[1..]), UnBytes(s));
    }
  }

  function JoinLines(lines: seq<string>): string
    requires lines != []
  {
    if |lines| == 1 then lines[0] else lines[0] + "\n" + JoinLines(lines[1..])
  }

  lemma {:induction false} JoinGlue(c: char, lines: seq<string>)
    requires lines != []
    ensures JoinLines(Glue(c, lines)) == [c] + JoinLines(lines)
  {
    if c == '\n' {
      assert ([""] + lines)[1..] == lines;
      assert "" + "\n" + JoinLines(lines) == [c] + JoinLines(lines);
    } else if |lines| > 1 {
      assert ([[c] + lines[0]] + lines[1..])[1..] == lines[1..];
      assert ([c] + lines[0]) + "\n" + JoinLines(lines[1..]) == [c] + (lines[0] + "\n" + JoinLines(lines[1..]));
    }
  }

  lemma {:induction false} JoinSplit(s: string)
    ensures JoinLines(SplitLines(s)) == s
  {
    if s != "" {
      JoinSplit(s[1..]);
      JoinGlue(s[0], SplitLines(s[1..]));
      assert [s[0]] + s[1..] == s;
    }
  }

  lemma {:induction false} BeforeEqualsCons(c: char, tail: string)
    ensures BeforeEquals([c] + tail) == if c == '=' then "" else [c] + BeforeEquals(tail)
  {
    assert ([c] + tail)[1..] == tail;
  }

  lemma {:induction false} InCons(c: char, tail: string)
    ensures '=' in [c] + tail <==> c == '=' || '=' in tail
  {
    assert ([c] + tail)[0] == c;
  }

  lemma {:induction false} ConsAppend(c: char, tail: string, more: string)
    ensures [c] + tail + more == [c] + (tail + more)
  {
  }

  lemma {:induction false} BeforeEqualsAppend(line: string, more: string)
    ensures BeforeEquals(line + more) == if '=' in line then BeforeEquals(line) else line + BeforeEquals(more)
  {
    if line == "" {
      assert line + more == more;
      assert line + BeforeEquals(more) == BeforeEquals(more);
    } else {
      var c, tail := line[0], line[1..];
      BeforeEqualsAppend(tail, more);
      BeforeEqualsCons(c, tail);
      BeforeEqualsCons(c, tail + more);
      InCons(c, tail);
      ConsAppend(c, tail, more);
      ConsAppend(c, tail, BeforeEquals(more));
      assert line == [c] + tail;
    }
  }

  lemma {:induction false} BeforeEqualsSpans(line: string, more: string)
    ensures if '=' in line then BeforeEquals(line + "\n" + more) == BeforeEquals(line)
            else !OneLine(BeforeEquals(line + "\n" + more))
  {
    BeforeEqualsAppend(line, "\n" + more);
    assert line + "\n" + more == line + ("\n" + more);
    if '=' !in line {
      assert ("\n" + more)[0] == '\n';
      assert BeforeEquals(line + "\n" + more)[|line|] == '\n';
    }
  }

  /** Whether several lines open something is decided by the first. */
  lemma {:induction false} OpensFirst(line: string, more: string, w: Words)
    requires PlainWords(w) && Opens(line + "\n" + more, w)
    ensures Opens(line, w)
  {
    assert (line + "\n" + more)[|line|] == '\n';
    BeforeEqualsSpans(line, more);
  }

  lemma {:induction false} JoinContinues(lines: seq<string>, w: Words)
    requires lines != [] && PlainWords(w) && forall i :: 0 <= i < |lines| ==> Continuing(lines[i], w)
    ensures Continuing(JoinLines(lines), w)
  {
    if |lines| > 1 && Opens(JoinLines(lines), w) {
      OpensFirst(lines[0], JoinLines(lines[1..]), w);
    }
  }

  /** Lines that continue the first are joined with it again, and with nothing that follows. */
  lemma {:induction false} Rejoin(lines: seq<string>, rest: seq<string>, w: Words)
    requires lines != [] && PlainWords(w) && forall i :: 1 <= i < |lines| ==> Continuing(lines[i], w)
    requires Rejoined(rest, w) == [] || !Continuing(Rejoined(rest, w)[0], w)
    ensures Rejoined(lines + rest, w) == [JoinLines(lines)] + Rejoined(rest, w)
  {
    assert (lines + rest)[1..] == lines[1..] + rest;
    if |lines| == 1 {
      assert lines[1..] + rest == rest;
    } else {
      Rejoin(lines[1..], rest, w);
      JoinContinues(lines[1..], w);
    }
  }

  /** A line of the stream as written: it is no continuation itself, and its own further lines are. */
  predicate Solid(line: string, w: Words) {
    !Continuing(line, w) && Tidy(line, w)
  }

  lemma {:induction false} UnBytesOfBytes(lines: seq<string>, w: Words)
    requires PlainWords(w) && forall l :: l in lines ==> Solid(l, w)
    ensures Rejoined(UnBytes(Bytes(lines)), w) == lines
  {
    if lines != [] {
      assert Solid(lines[0], w);
      UnBytesPrepend(lines[0], Bytes(lines[1..]));
      UnBytesOfBytes(lines[1..], w);
      assert lines[1..] != [] ==> Solid(lines[1..][0], w);
      Rejoin(SplitLines(lines[0]), UnBytes(Bytes(lines[1..])), w);
      JoinSplit(lines[0]);
    }
  }

  lemma {:induction false} BeforeEqualsOfLine(k: string, v: string)
    requires '=' !in k
    ensures BeforeEquals(k + "=" + v) == k
  {
    if k == "" {
      assert k + "=" + v == "=" + v;
    } else {
      assert (k + "=" + v)[1..] == k[1..] + "=" + v;
      BeforeEqualsOfLine(k[1..], v);
    }
  }

  predicate CleanSection(sec: Section, w: Words) {
    CleanKey(sec.header) && sec.header in w.heads &&
    forall x :: x in sec.items ==> CleanKey(x.key) && x.key in w.keys && Tidy(x.val, w)
  }

  /** A data line parses back to its item. */
  lemma {:induction false} ParseItemOfLine(x: Item<string>)
    requires CleanKey(x.key)
    ensures '=' in x.key + "=" + x.val
    ensures ParseItem(x.key + "=" + x.val) == x
  {
    var line := x.key + "=" + x.val;
    assert line[|x.key|] == '=';
    BeforeEqualsOfLine(x.key, x.val);
    assert line[|x.key| + 1..] == x.val;
  }

  lemma {:induction false} ParseLine(x: Item<string>, rest: seq<string>)
    requires CleanKey(x.key)
    ensures Parse([x.key + "=" + x.val] + rest) == Parse(rest).(pending := [x] + Parse(rest).pending)
  {
    var line := x.key + "=" + x.val;
    ParseItemOfLine(x);
    assert ([line] + rest)[1..] == rest;
  }

  lemma {:induction false} ParseItems(xs: seq<Item<string>>, rest: seq<string>)
    requires forall x :: x in xs ==> CleanKey(x.key)
    ensures Parse(Lines(xs) + rest) == Parse(rest).(pending := xs + Parse(rest).pending)
  {
    if xs == [] {
      assert Lines(xs) + rest == rest;
    } else {
      assert Lines(xs) + rest == [xs[0].key + "=" + xs[0].val] + (Lines(xs[1..]) + rest);
      ParseItems(xs[1..], rest);
      ParseLine(xs[0], Lines(xs[1..]) + rest);
      assert [xs[0]] + (xs[1..] + Parse(rest).pending) == xs + Parse(rest).pending;
    }
  }

  lemma {:induction false} ParseSections(secs: seq<Section>, w: Words)
    requires forall s :: s in secs ==> CleanSection(s, w)
    ensures Parse(AllLines(secs)) == Parsed([], secs)
  {
    if secs != [] {
      assert secs[0] in secs;
      assert CleanSection(secs[0], w);
      ParseSections(secs[1..], w);
      ParseItems(secs[0].items, AllLines(secs[1..]));
      assert AllLines(secs)[1..] == Lines(secs[0].items) + AllLines(secs[1..]);
      assert secs[0].items + [] == secs[0].items;
      assert [secs[0]] + secs[1..] == secs;
    }
  }

  lemma {:induction false} SolidItem(x: Item<string>, w: Words)
    requires CleanKey(x.key) && x.key in w.keys && Tidy(x.val, w)
    ensures Solid(x.key + "=" + x.val, w)
  {
    var front := x.key + "=";
    SplitPrepend(front, x.val);
    assert front + x.val == x.key + "=" + x.val;
    assert (front + x.val)[|x.key|] == '=';
    BeforeEqualsOfLine(x.key, x.val);
  }

  lemma {:induction false} SolidLines(xs: seq<Item<string>>, w: Words)
    requires forall x :: x in xs ==> CleanKey(x.key) && x.key in w.keys && Tidy(x.val, w)
    ensures forall l :: l in Lines(xs) ==> Solid(l, w)
  {
    if xs != [] {
      SolidItem(xs[0], w);
      SolidLines(xs[1..], w);
    }
  }

  lemma {:induction false} SolidAllLines(secs: seq<Section>, w: Words)
    requires forall s :: s in secs ==> CleanSection(s, w)
    ensures forall l :: l in AllLines(secs) ==> Solid(l, w)
  {
    if secs != [] {
      assert secs[0] in secs;
      assert CleanSection(secs[0], w);
      OneLineIsTidy(secs[0].header, w);
      SolidLines(secs[0].items, w);
      SolidAllLines(secs[1..], w);
    }
  }

  /** The sections of a stream can be read off it. */
  lemma {:induction false} SectionsRecovered(secs: seq<Section>, w: Words)
    requires PlainWords(w) && forall s :: s in secs ==> CleanSection(s, w)
    ensures Parse(Rejoined(UnBytes(Bytes(AllLines(secs))), w)).sections == secs
  {
    ParseSections(secs, w);
    SolidAllLines(secs, w);
    UnBytesOfBytes(AllLines(secs), w);
  }

  /** The section of a ConfigMap entry gathers back to the entry. */
  lemma {:induction false} CmSection(x: Item<map<string, string>>, rest: seq<Section>)
    ensures Gather([Section("cm:" + x.key, Listed(x.val))] + rest)
            == Gather(rest).(configMaps := Gather(rest).configMaps[x.key := x.val])
  {
    var h := "cm:" + x.key;
    assert h[|"cm:"|..] == x.key && StartsWith(h, "cm:");
    ListedSpells(x.val);
    assert ([Section(h, Listed(x.val))] + rest)[1..] == rest;
  }

  /** The same for a Secret entry. */
  lemma {:induction false} SecretSection(x: Item<map<string, string>>, rest: seq<Section>)
    ensures Gather([Section("secret:" + x.key, Listed(x.val))] + rest)
            == Gather(rest).(secrets := Gather(rest).secrets[x.key := x.val])
  {
    var h := "secret:" + x.key;
    assert h[|"secret:"|..] == x.key && StartsWith(h, "secret:");
    assert h[0] == 's' && h[..|"cm:"|][0] == 's' && !StartsWith(h, "cm:");
    ListedSpells(x.val);
    assert ([Section(h, Listed(x.val))] + rest)[1..] == rest;
  }

  /** The section of an entry is clean when the entry is. */
  lemma {:induction false} EntrySection(head: string, key: string, data: map<string, string>, w: Words)
    requires head + key in w.heads && CleanKey(head) && CleanKey(key) && CleanData(data, w)
    ensures CleanSection(Section(head + key, Listed(data)), w)
  {
  }

  lemma {:induction false} CleanCm(xs: seq<Item<map<string, string>>>, w: Words)
    requires CleanItems("cm:", xs, w)
    ensures forall s :: s in CmSections(xs) ==> CleanSection(s, w)
  {
    if xs != [] {
      assert xs[0] in xs;
      CleanCm(xs[1..], w);
      EntrySection("cm:", xs[0].key, xs[0].val, w);
    }
  }

  lemma {:induction false} CleanSecrets(xs: seq<Item<map<string, string>>>, w: Words)
    requires CleanItems("secret:", xs, w)
    ensures forall s :: s in SecretSections(xs) ==> CleanSection(s, w)
  {
    if xs != [] {
      assert xs[0] in xs;
      CleanSecrets(xs[1..], w);
      EntrySection("secret:", xs[0].key, xs[0].val, w);
    }
  }

  lemma {:induction false} CmSectionsCons(xs: seq<Item<map<string, string>>>, rest: seq<Section>)
    requires xs != []
    ensures CmSections(xs) + rest == [Section("cm:" + xs[0].key, Listed(xs[0].val))] + (CmSections(xs[1..]) + rest)
  {
  }

  lemma {:induction false} GatherCm(xs: seq<Item<map<string, string>>>, rest: seq<Section>)
    ensures Gather(CmSections(xs) + rest).secrets == Gather(rest).secrets
    ensures Gather(rest).configMaps == map[] ==> Gather(CmSections(xs) + rest).configMaps == ItemMap(xs)
  {
    if xs == [] {
      assert CmSections(xs) + rest == rest;
    } else {
      var tail := CmSections(xs[1..]) + rest;
      GatherCm(xs[1..], rest);
      CmSection(xs[0], tail);
      CmSectionsCons(xs, rest);
    }
  }

  function WithoutEmpty(m: map<string, map<string, string>>): map<string, map<string, string>> {
    map n | n in m && m[n] != map[] :: m[n]
  }

  lemma {:induction false} WithoutEmptyInsert(m: map<string, map<string, string>>, k: string, v: map<string, string>)
    requires k !in m
    ensures WithoutEmpty(m[k := v]) == if v == map[] then WithoutEmpty(m) else WithoutEmpty(m)[k := v]
  {
  }

  lemma {:induction false} GatherSecrets(xs: seq<Item<map<string, string>>>)
    requires UniqueKeys(xs)
    ensures Gather(SecretSections(xs)).configMaps == map[]
    ensures Gather(SecretSections(xs)).secrets == WithoutEmpty(ItemMap(xs))
  {
    if xs != [] {
      UniqueTail(xs);
      GatherSecrets(xs[1..]);
      ItemMapShape(xs[1..]);
      var m := ItemMap(xs[1..]);
      assert forall k :: k in m ==> Item(k, m[k]).key != xs[0].key;
      assert xs[0].key !in m;
      WithoutEmptyInsert(m, xs[0].key, xs[0].val);
      SecretSection(xs[0], SecretSections(xs[1..]));
    }
  }

  lemma {:induction false} SortKeepsItems(xs: seq<Item<map<string, string>>>)
    requires UniqueKeys(xs)
    ensures UniqueKeys(Sort(xs)) && ItemMap(Sort(xs)) == ItemMap(xs)
    ensures forall x :: x in Sort(xs) <==> x in xs
  {
    SortShape(xs);
    AscendingHasUniqueKeys(Sort(xs));
    ItemMapSameElements(Sort(xs), xs);
  }

  lemma {:induction false} SectionsAreClean(spec: AppSpec, w: Words)
    requires Readable(spec, w)
    ensures forall s :: s in Sections(spec) ==> CleanSection(s, w)
  {
    SortKeepsItems(CmItems(spec.configMaps));
    SortKeepsItems(SecretItems(spec.secrets));
    CleanCm(Sort(CmItems(spec.configMaps)), w);
    CleanSecrets(Sort(SecretItems(spec.secrets)), w);
  }

  lemma {:induction false} SectionsGather(spec: AppSpec)
    requires UniqueKeys(CmItems(spec.configMaps)) && UniqueKeys(SecretItems(spec.secrets))
    ensures Gather(Sections(spec)) == Declared(spec)
  {
    var cms, secs := CmItems(spec.configMaps), SecretItems(spec.secrets);
    SortKeepsItems(cms);
    SortKeepsItems(secs);
    GatherSecrets(Sort(secs));
    GatherCm(Sort(cms), SecretSections(Sort(secs)));
  }

  lemma {:induction false} StreamPresent(spec: AppSpec)
    requires UniqueKeys(CmItems(spec.configMaps)) && UniqueKeys(SecretItems(spec.secrets))
    ensures ConfigStream(spec).None? <==> Declared(spec) == ConfigData(map[], map[])
  {
    var cms := CmItems(spec.configMaps);
    InlineDataDeclared(spec);
    ItemMapShape(cms);
    if spec.configMaps != [] {
      assert cms[0] in cms;
    }
  }

  /** The decoder recovers exactly the declared data of a readable spec. */
  lemma {:induction false} DecodeRecovers(spec: AppSpec, w: Words)
    requires Readable(spec, w)
    ensures ConfigStream(spec).Some? ==> Decode(ConfigStream(spec).value, w) == Declared(spec)
    ensures ConfigStream(spec).None? <==> Declared(spec) == ConfigData(map[], map[])
  {
    StreamPresent(spec);
    SectionsGather(spec);
    SectionsAreClean(spec, w);
    SectionsRecovered(Sections(spec), w);
  }

  /** Two specs that are readable over their headers and keys hash alike under an injective digest exactly when they
      declare the same data, so the pod template changes when and only when that data does. */
  lemma {:induction false} HashTracksData(a: AppSpec, b: AppSpec, digest: string -> string)
    requires Readable(a, Union(ConfigWords(a), ConfigWords(b))) && Readable(b, Union(ConfigWords(a), ConfigWords(b)))
    requires forall s, t :: digest(s) == digest(t) ==> s == t
    ensures (ConfigStream(a).None? && ConfigStream(b).None?) ||
            (ConfigStream(a).Some? && ConfigStream(b).Some? &&
             digest(ConfigStream(a).value) == digest(ConfigStream(b).value))
            <==> Declared(a) == Declared(b)
  {
    DecodeRecovers(a, Union(ConfigWords(a), ConfigWords(b)));
    DecodeRecovers(b, Union(ConfigWords(a), ConfigWords(b)));
    if Declared(a) == Declared(b) {
      SameDataSameStream(a, b);
    }
  }

  lemma {:induction false} SameConfigMapSections(ca: seq<Item<map<string, string>>>, cb: seq<Item<map<string, string>>>)
    requires UniqueKeys(ca) && UniqueKeys(cb) && ItemMap(ca) == ItemMap(cb)
    ensures Sort(ca) == Sort(cb)
    ensures ca == [] <==> cb == []
  {
    SortShape(ca);
    SortShape(cb);
    ItemMapSameElements(ca, cb);
    AscendingIsUnique(Sort(ca), Sort(cb));
    if ca != [] {
      assert ca[0] in cb;
    }
    if cb != [] {
      assert cb[0] in ca;
    }
  }

  /** The entries with data, in order, are determined by the data that is declared. */
  lemma {:induction false} NonEmptyMeans(xs: seq<Item<map<string, string>>>)
    requires UniqueKeys(xs)
    ensures Ascending(NonEmpty(Sort(xs)))
    ensures forall x :: x in NonEmpty(Sort(xs)) <==>
              x.key in WithoutEmpty(ItemMap(xs)) && WithoutEmpty(ItemMap(xs))[x.key] == x.val
  {
    SortShape(xs);
    NonEmptyAscending(Sort(xs));
    ItemMapShape(xs);
  }

  lemma {:induction false} SameSecretSections(sa: seq<Item<map<string, string>>>, sb: seq<Item<map<string, string>>>)
    requires UniqueKeys(sa) && UniqueKeys(sb) && WithoutEmpty(ItemMap(sa)) == WithoutEmpty(ItemMap(sb))
    ensures SecretSections(Sort(sa)) == SecretSections(Sort(sb))
  {
    NonEmptyMeans(sa);
    NonEmptyMeans(sb);
    AscendingIsUnique(NonEmpty(Sort(sa)), NonEmpty(Sort(sb)));
    SkipEmpty(Sort(sa));
    SkipEmpty(Sort(sb));
  }

  /** The stream depends on the data alone: not on the order of entries, nor on map iteration. */
  lemma {:induction false} SameDataSameStream(a: AppSpec, b: AppSpec)
    requires UniqueKeys(CmItems(a.configMaps)) && UniqueKeys(SecretItems(a.secrets))
    requires UniqueKeys(CmItems(b.configMaps)) && UniqueKeys(SecretItems(b.secrets))
    requires Declared(a) == Declared(b)
    ensures ConfigStream(a) == ConfigStream(b)
  {
    SameConfigMapSections(CmItems(a.configMaps), CmItems(b.configMaps));
    SameSecretSections(SecretItems(a.secrets), SecretItems(b.secrets));
    InlineDataDeclared(a);
    InlineDataDeclared(b);
    assert a.configMaps == [] <==> CmItems(a.configMaps) == [];
    assert b.configMaps == [] <==> CmItems(b.configMaps) == [];
  }

  lemma {:induction false} InlineDataDeclared(spec: AppSpec)
    requires UniqueKeys(SecretItems(spec.secrets))
    ensures HasInlineData(spec.secrets) <==> Declared(spec).secrets != map[]
  {
    var secs := SecretItems(spec.secrets);
    ItemMapShape(secs);
    if HasInlineData(spec.secrets) {
      var i :| 0 <= i < |spec.secrets| && spec.secrets[i].data.Some? && spec.secrets[i].data.value != map[];
      assert secs[i] in secs;
      assert secs[i].key in Declared(spec).secrets;
    } else {
      forall n | n in ItemMap(secs)
        ensures ItemMap(secs)[n] == map[]
      {
        assert Item(n, ItemMap(secs)[n]) in secs;
      }
    }
  }

  function NonEmpty(xs: seq<Item<map<string, string>>>): seq<Item<map<string, string>>> {
    if xs == [] then []
    else if xs[0].val == map[] then NonEmpty(xs[1..])
    else [xs[0]] + NonEmpty(xs[1..])
  }

  lemma {:induction false} SkipEmpty(xs: seq<Item<map<string, string>>>)
    ensures SecretSections(NonEmpty(xs)) == SecretSections(xs)
  {
    if xs != [] {
      SkipEmpty(xs[1..]);
      if xs[0].val != map[] {
        assert NonEmpty(xs)[1..] == NonEmpty(xs[1..]);
      }
    }
  }

  lemma {:induction false} NonEmptyAscending(xs: seq<Item<map<string, string>>>)
    requires Ascending(xs)
    ensures Ascending(NonEmpty(xs))
    ensures forall x :: x in NonEmpty(xs) <==> x in xs && x.val != map[]
  {
    if xs != [] {
      AscendingTail(xs);
      NonEmptyAscending(xs[1..]);
      var r := NonEmpty(xs[1..]);
      forall i | 0 <= i < |r|
        ensures Less(xs[0].key, r[i].key)
      {
        assert r[i] in r;
      }
    }
  }

  lemma {:induction false} OneItem(name: string, m: map<string, string>)
    ensures var one := [Item(name, m)];
            Sort(one) == one && ItemMap(one) == map[name := m] && CmSections(one) == [Section("cm:" + name, Listed(m))]
  {
    assert [Item(name, m)][1..] == [];
  }

  lemma {:induction false} OneConfigMap(spec: AppSpec, name: string, m: map<string, string>)
    ensures var s := spec.(configMaps := [ConfigMapMount(name, "/c", m)]);
            ConfigStream(s) == Some(Bytes([("cm:" + name)] + Lines(Listed(m)))
                                    + Bytes(AllLines(SecretSections(Sort(SecretItems(spec.secrets)))))) &&
            Declared(s).configMaps == map[name := m]
  {
    var s := spec.(configMaps := [ConfigMapMount(name, "/c", m)]);
    var rest := SecretSections(Sort(SecretItems(spec.secrets)));
    var sec := Section("cm:" + name, Listed(m));
    assert CmItems(s.configMaps) == [Item(name, m)];
    OneItem(name, m);
    AllLinesAppend([sec], rest);
    BytesAppend(AllLines([sec]), AllLines(rest));
    assert AllLines([sec]) == [sec.header] + Lines(sec.items) by { assert Lines(sec.items) + [] == Lines(sec.items); }
  }

  lemma {:induction false} OneKeyListed(k: string, v: string)
    ensures Listed(map[k := v]) == [Item(k, v)]
  {
    assert k in map[k := v];
    AscendingIsUnique(Listed(map[k := v]), [Item(k, v)]);
  }

  lemma {:induction false} TwoKeysListed(k: string, v: string, l: string, w: string)
    requires Less(k, l)
    ensures Listed(map[k := v, l := w]) == [Item(k, v), Item(l, w)]
  {
    LessIsTotalOrder(k, l, k);
    var n := map[k := v, l := w];
    assert l in n && k in n;
    AscendingIsUnique(Listed(n), [Item(k, v), Item(l, w)]);
  }

  lemma {:induction false} OneLineBytes(k: string, v: string)
    ensures Lines([Item(k, v)]) == [k + "=" + v]
    ensures Bytes([k + "=" + v]) == k + "=" + v + "\n"
  {
    assert [Item(k, v)][1..] == [] && [k + "=" + v][1..] == [];
  }

  lemma {:induction false} TwoLinesBytes(k: string, v: string, l: string, w: string)
    ensures Bytes(Lines([Item(k, v), Item(l, w)])) == (k + "=" + v) + "\n" + (l + "=" + w + "\n")
  {
    var first, second := k + "=" + v, l + "=" + w;
    OneLineBytes(l, w);
    assert [Item(k, v), Item(l, w)][1..] == [Item(l, w)];
    assert Lines([Item(k, v), Item(l, w)]) == [first] + [second];
    assert ([first] + [second])[1..] == [second];
  }

  lemma {:induction false} OneAndTwoLines(k: string, v: string, l: string, w: string)
    requires Less(k, l)
    ensures Bytes(Lines(Listed(map[k := v + "\n" + l + "=" + w]))) == Bytes(Lines(Listed(map[k := v, l := w])))
  {
    OneKeyListed(k, v + "\n" + l + "=" + w);
    TwoKeysListed(k, v, l, w);
    TwoLinesBytes(k, v, l, w);
    OneLineBytes(k, v + "\n" + l + "=" + w);
    assert (k + "=" + v) + "\n" + (l + "=" + w + "\n") == k + "=" + (v + "\n" + l + "=" + w) + "\n";
  }

  /** Other values can make the hash miss a change: one key whose value spans two lines and
      two keys with one line each give the same stream. */
  lemma {:induction false} MultiLineValuesAreAmbiguous(spec: AppSpec, name: string, k: string, v: string, l: string,
                                                       w: string)
    requires Less(k, l)
    ensures var one := spec.(configMaps := [ConfigMapMount(name, "/c", map[k := v + "\n" + l + "=" + w])]);
            var two := spec.(configMaps := [ConfigMapMount(name, "/c", map[k := v, l := w])]);
            ConfigStream(one) == ConfigStream(two) && Declared(one) != Declared(two)
  {
    LessIsTotalOrder(k, l, k);
    var m, n := map[k := v + "\n" + l + "=" + w], map[k := v, l := w];
    OneConfigMap(spec, name, m);
    OneConfigMap(spec, name, n);
    OneAndTwoLines(k, v, l, w);
    BytesAppend(["cm:" + name], Lines(Listed(m)));
    BytesAppend(["cm:" + name], Lines(Listed(n)));
    assert l in n && l !in m;
    assert map[name := m][name] == m && map[name := n][name] == n;
  }
}
