/**
 Naming of tools on the wire (internal/server/responses.go): how declared tools, top-level or
 grouped in namespaces, get flat names of at most 64 bytes, and how the names are mapped back.

 Names are byte strings. The 12 hexadecimal digits that the program takes from a SHA-256 digest
 come from the parameter digest, of which nothing but the length is used.
 */
module ToolNames {

  type byte = b: int | 0 <= b < 256
  type Name = seq<byte>
  type Hex = s: seq<byte> | |s| == 12 witness seq(12, _ => 48)

  const SEPARATOR: Name := [95, 95]
  const LIMIT := 64

  // ---- UTF-8, section 3 of RFC 3629 ----

  predicate Tail(b: byte) {
    0x80 <= b <= 0xBF
  }

  /** Length of the well-formed character at the head of s, or 0. */
  function RuneLen(s: Name): (n: nat)
    ensures n <= 4 && n <= |s|
  {
    if s == [] then 0
    else if s[0] < 0x80 then 1
    else if |s| < 2 then 0
    else if 0xC2 <= s[0] <= 0xDF then (if Tail(s[1]) then 2 else 0)
    else if |s| < 3 then 0
    else if 0xE0 <= s[0] <= 0xEF then
      (if (if s[0] == 0xE0 then 0xA0 <= s[1] <= 0xBF else if s[0] == 0xED then 0x80 <= s[1] <= 0x9F else Tail(s[1]))
          && Tail(s[2]) then 3 else 0)
    else if |s| < 4 then 0
    else if 0xF0 <= s[0] <= 0xF4 then
      (if (if s[0] == 0xF0 then 0x90 <= s[1] <= 0xBF else if s[0] == 0xF4 then 0x80 <= s[1] <= 0x8F else Tail(s[1]))
          && Tail(s[2]) && Tail(s[3]) then 4 else 0)
    else 0
  }

  predicate ValidUtf8(s: Name) {
    s == [] || (RuneLen(s) > 0 && ValidUtf8(s[RuneLen(s)..]))
  }

  /** Drops bytes from the end until what is left is valid. */
  function DropBroken(s: Name): (r: Name)
    ensures r <= s && ValidUtf8(r)
    ensures forall k :: |r| < k <= |s| ==> !ValidUtf8(s[..k])
  {
    if ValidUtf8(s) then assert s[..|s|] == s; s
    else
      var shorter := s[..|s| - 1];
      assert forall k :: 0 <= k <= |shorter| ==> shorter[..k] == s[..k];
      assert s[..|s|] == s;
      DropBroken(shorter)
  }

  function NamePrefix(name: Name, limit: nat): (r: Name)
    ensures r <= name && |r| <= limit
    ensures |name| <= limit ==> r == name
  {
    if |name| <= limit then name else DropBroken(name[..limit])
  }

  lemma {:induction false} CharacterBoundary(s: Name, limit: nat) returns (b: nat)
    requires ValidUtf8(s) && limit <= |s|
    ensures b <= limit < b + 4 && ValidUtf8(s[..b])
  {
    var n := RuneLen(s);
    if s == [] || n > limit {
      b := 0;
    } else {
      var rest := CharacterBoundary(s[n..], limit - n);
      b := n + rest;
      assert s[..b][n..] == s[n..][..rest];
      assert RuneLen(s[..b]) == n;
    }
  }

  /** Cutting valid text loses at most three bytes more than the limit asks for. */
  lemma PrefixIsTight(name: Name, limit: nat)
    requires ValidUtf8(name) && limit < |name|
    ensures limit < |NamePrefix(name, limit)| + 4 && ValidUtf8(NamePrefix(name, limit))
  {
    var b := CharacterBoundary(name, limit);
    assert name[..limit][..b] == name[..b];
  }

  // ---- Bounded and unique names ----

  function BoundedName(digest: Name -> Hex, name: Name): (r: Name)
    ensures |r| <= LIMIT
    ensures |name| <= LIMIT ==> r == name
  {
    if |name| <= LIMIT then name
    else NamePrefix(name, LIMIT - 14) + SEPARATOR + digest(name)
  }

  /** What a name becomes: itself if it fits, else a prefix of 47 to 50 bytes, cut between characters, two underscores and the digest. */
  ghost predicate Shortened(digest: Name -> Hex, name: Name, r: Name) {
    if |name| <= 64 then r == name
    else exists k :: 0 <= k <= 50 && (ValidUtf8(name) ==> 47 <= k) && ValidUtf8(name[..k]) && r == name[..k] + [95, 95] + digest(name)
  }

  lemma BoundedNameShortens(digest: Name -> Hex, name: Name)
    ensures Shortened(digest, name, BoundedName(digest, name))
  {
    if |name| > 64 {
      var r := NamePrefix(name, 50);
      assert r == name[..|r|] && r == DropBroken(name[..50]);
      if ValidUtf8(name) {
        PrefixIsTight(name, 50);
      }
    }
  }

  function Decimal(n: nat): (r: Name)
    ensures |r| > 0 && forall i :: 0 <= i < |r| ==> 48 <= r[i] <= 57
  {
    if n < 10 then [48 + n] else Decimal(n / 10) + [48 + n % 10]
  }

  lemma {:induction false} DecimalInjective(m: nat, n: nat)
    requires Decimal(m) == Decimal(n)
    ensures m == n
  {
    var dm, dn := Decimal(m), Decimal(n);
    assert dm[|dm| - 1] == 48 + m % 10 && dn[|dn| - 1] == 48 + n % 10;
    if m >= 10 && n >= 10 {
      assert dm[..|dm| - 1] == Decimal(m / 10) && dn[..|dn| - 1] == Decimal(n / 10);
      DecimalInjective(m / 10, n / 10);
    }
  }

  function Pow10(k: nat): (p: nat)
    ensures p > 0
  {
    if k == 0 then 1 else 10 * Pow10(k - 1)
  }

  lemma {:induction false} DecimalLength(n: nat, k: nat)
    requires k > 0 && n < Pow10(k)
    ensures |Decimal(n)| <= k
  {
    if n >= 10 {
      DecimalLength(n / 10, k - 1);
    }
  }

  function Suffix(index: nat): Name {
    SEPARATOR + Decimal(index)
  }

  /** The index-th alternative for a name that is taken; no suffix in use comes near the limit. */
  function Candidate(stem: Name, index: nat): Name {
    NamePrefix(stem, if |Suffix(index)| <= LIMIT then LIMIT - |Suffix(index)| else 0) + Suffix(index)
  }

  /** c ends with an underscore and the digits d. */
  predicate EndsWithNumber(c: Name, d: Name) {
    |d| < |c| && c[|c| - |d| - 1] == 95 && forall k :: 0 <= k < |d| ==> c[|c| - |d| + k] == d[k]
  }

  lemma CandidateTail(stem: Name, index: nat)
    ensures EndsWithNumber(Candidate(stem, index), Decimal(index))
  {
    hide Decimal, NamePrefix;
    assert Suffix(index)[1] == 95;
  }

  lemma SameNumber(c: Name, d: Name, d': Name)
    requires EndsWithNumber(c, d) && EndsWithNumber(c, d') && |d| == |d'|
    ensures d == d'
  {
  }

  /** Alternatives with different indices are different names, so the search cannot run in circles. */
  lemma CandidateInjective(stem: Name, i: nat, j: nat)
    requires i != j
    ensures Candidate(stem, i) != Candidate(stem, j)
  {
    hide *;
    var di, dj := Decimal(i), Decimal(j);
    CandidateTail(stem, i);
    CandidateTail(stem, j);
    if |di| < |dj| {
      LongerSuffix(stem, i, j);
    } else if |dj| < |di| {
      LongerSuffix(stem, j, i);
    } else if Candidate(stem, i) == Candidate(stem, j) {
      SameNumber(Candidate(stem, i), di, dj);
      DecimalInjective(i, j);
    }
  }

  /** The separator of the shorter suffix stands where the longer suffix has a digit. */
  lemma LongerSuffix(stem: Name, i: nat, j: nat)
    requires |Decimal(i)| < |Decimal(j)|
    ensures Candidate(stem, i) != Candidate(stem, j)
  {
    CandidateTail(stem, i);
    CandidateTail(stem, j);
    var ci, cj := Candidate(stem, i), Candidate(stem, j);
    var back := |Decimal(i)| + 1;
    hide Candidate, Decimal;
    assert ci[|ci| - back] == 95;
    assert cj[|cj| - back] == Decimal(j)[|Decimal(j)| - back] <= 57;
  }

  /** Sets of names are counted by Go ints; every index the search can reach then has at most 19 digits. */
  const MAX_LEN := 0x7FFF_FFFF_FFFF_FFF0

  lemma SuffixFits(index: nat)
    requires index <= MAX_LEN + 2
    ensures |Suffix(index)| <= 21
  {
    assert Pow10(4) == 10_000;
    assert Pow10(8) == 100_000_000;
    assert Pow10(12) == 1_000_000_000_000;
    assert Pow10(16) == 10_000_000_000_000_000;
    assert Pow10(19) == 10_000_000_000_000_000_000;
    DecimalLength(index, 19);
  }

  /** The stem, cut at the end just as far as the limit of 64 bytes asks for, two underscores and the number. */
  ghost predicate Numbered(stem: Name, index: nat, r: Name) {
    exists k :: 0 <= k <= |stem| && r == stem[..k] + [95, 95] + Decimal(index)
                && (|stem| + 2 + |Decimal(index)| <= 64 ==> k == |stem|)
                && (ValidUtf8(stem) && k < |stem| ==> 64 < |r| + 4)
  }

  lemma CandidateNumbers(stem: Name, index: nat)
    requires index <= MAX_LEN + 2
    ensures |Candidate(stem, index)| <= 64 && Numbered(stem, index, Candidate(stem, index))
  {
    SuffixFits(index);
    hide Decimal;
    var limit := 64 - |Suffix(index)|;
    var front := NamePrefix(stem, limit);
    assert front == stem[..|front|];
    if ValidUtf8(stem) && limit < |stem| {
      PrefixIsTight(stem, limit);
    }
    hide NamePrefix, DropBroken, ValidUtf8;
    assert Candidate(stem, index) == stem[..|front|] + [95, 95] + Decimal(index);
  }

  /** r is the name itself if it is free, and otherwise its first free alternative. */
  ghost predicate FirstFree(stem: Name, taken: set<Name>, r: Name) {
    if stem !in taken then r == stem
    else exists k: nat :: FreeAt(stem, taken, r, k)
  }

  ghost predicate FreeAt(stem: Name, taken: set<Name>, r: Name, k: nat) {
    && 2 <= k <= |taken| + 2 && r == Candidate(stem, k)
    && forall i: nat :: 2 <= i < k ==> Candidate(stem, i) in taken
  }

  /** If the first n alternatives are all taken then at least n names are taken. */
  lemma {:induction false} SearchEnds(stem: Name, taken: set<Name>, n: nat)
    requires forall i: nat :: 2 <= i < n + 2 ==> Candidate(stem, i) in taken
    ensures n <= |taken|
  {
    hide *;
    if n > 0 {
      var last := Candidate(stem, n + 1);
      forall i: nat | 2 <= i < n + 1
        ensures Candidate(stem, i) in taken - {last}
      {
        if Candidate(stem, i) == last {
          CandidateInjective(stem, i, n + 1);
        }
      }
      SearchEnds(stem, taken - {last}, n - 1);
    }
  }

  method UniqueChatToolName(digest: Name -> Hex, name: Name, taken: set<Name>) returns (r: Name)
    requires |taken| <= MAX_LEN
    ensures FirstFree(BoundedName(digest, name), taken, r)
    ensures r !in taken && |r| <= LIMIT
  {
    hide Decimal, NamePrefix, DropBroken, BoundedName;
    var stem := BoundedName(digest, name);
    if stem !in taken {
      return stem;
    }
    var index := 2;
    while true
      invariant 2 <= index <= |taken| + 2
      invariant forall i: nat :: 2 <= i < index ==> Candidate(stem, i) in taken
      decreases |taken| + 2 - index
    {
      SuffixFits(index);
      var suffix := Suffix(index);
      var candidate := NamePrefix(stem, LIMIT - |suffix|) + suffix;
      if candidate !in taken {
        assert FreeAt(stem, taken, candidate, index);
        return candidate;
      }
      SearchEnds(stem, taken, index - 1);
      index := index + 1;
    }
  }

  // ---- Declarations ----

  datatype Child = Child(name: Name, custom: bool)

  /** One entry of the request's tool list. Built-in tools have no counterpart upstream. */
  datatype Tool =
    | Top(name: Name, custom: bool)
    | Namespace(name: Name, children: seq<Child>)
    | Builtin

  /** A tool the client can name: namespace [] stands for the top level. */
  datatype Decl = Decl(namespace: Name, name: Name, custom: bool)

  datatype Alias = Alias(namespace: Name, name: Name, custom: bool)

  /** Length of the Unicode white space at the head of s, or 0. */
  function SpaceLen(s: Name): (n: nat)
    ensures n <= |s|
  {
    if s == [] then 0
    else if 9 <= s[0] <= 13 || s[0] == 32 then 1
    else if |s| >= 2 && s[0] == 0xC2 && s[1] in [0x85, 0xA0] then 2
    else if |s| < 3 then 0
    else if s[..3] in [[0xE1, 0x9A, 0x80], [0xE2, 0x81, 0x9F], [0xE3, 0x80, 0x80]] then 3
    else if s[0] == 0xE2 && s[1] == 0x80 && (0x80 <= s[2] <= 0x8A || s[2] in [0xA8, 0xA9, 0xAF]) then 3
    else 0
  }

  predicate Blank(s: Name) {
    s == [] || (SpaceLen(s) > 0 && Blank(s[SpaceLen(s)..]))
  }

  function Children(namespace: Name, children: seq<Child>): seq<Decl> {
    if children == [] then []
    else
      var n := |children| - 1;
      var rest := Children(namespace, children[..n]);
      if Blank(namespace) || children[n].name == [] then rest
      else rest + [Decl(namespace, children[n].name, children[n].custom)]
  }

  function DeclsOf(tool: Tool): seq<Decl> {
    match tool
    case Top(name, custom) => if name == [] then [] else [Decl([], name, custom)]
    case Namespace(name, children) => Children(name, children)
    case Builtin => []
  }

  /** The tools that reach the upstream, in declaration order. */
  function Declared(tools: seq<Tool>): seq<Decl> {
    if tools == [] then [] else Declared(tools[..|tools| - 1]) + DeclsOf(tools[|tools| - 1])
  }

  /** The identity under which request validation rejects duplicates, also the key of the alias index. */
  function Key(namespace: Name, name: Name): Name {
    namespace + [0] + name
  }

  ghost predicate Clash(decls: seq<Decl>, i: int, j: int) {
    && 0 <= i < j < |decls|
    && Key(decls[i].namespace, decls[i].name) == Key(decls[j].namespace, decls[j].name)
  }

  ghost predicate DistinctKeys(decls: seq<Decl>) {
    forall i, j :: !Clash(decls, i, j)
  }

  // ---- The alias tables ----

  /** What the request remembers about the names it gave out. */
  datatype Tables = Tables(aliases: map<Name, Alias>, customs: set<Name>)

  /** Upstream name to (name, namespace, custom). */
  function ResponsesToolName(t: Tables, wire: Name): Decl {
    if wire in t.aliases then
      Decl(t.aliases[wire].namespace, t.aliases[wire].name, t.aliases[wire].custom)
    else Decl([], wire, wire in t.customs)
  }

  function AliasKey(a: Alias): Name {
    Key(a.namespace, a.name)
  }

  /** index maps exactly the keys of the aliases, each to a wire name of an alias with that key. */
  ghost predicate IsIndex(index: map<Name, Name>, aliases: map<Name, Alias>) {
    && (forall flat :: flat in aliases ==> AliasKey(aliases[flat]) in index)
    && (forall key :: key in index ==> index[key] in aliases && AliasKey(aliases[index[key]]) == key)
  }

  method ToolAliasIndex(aliases: map<Name, Alias>) returns (index: map<Name, Name>)
    ensures IsIndex(index, aliases)
  {
    index := map[];
    var rest := aliases.Keys;
    while rest != {}
      invariant rest <= aliases.Keys
      invariant forall flat :: flat in aliases && flat !in rest ==> AliasKey(aliases[flat]) in index
      invariant forall key :: key in index ==> index[key] in aliases && AliasKey(aliases[index[key]]) == key
      decreases rest
    {
      var flat :| flat in rest;
      index := index[AliasKey(aliases[flat]) := flat];
      rest := rest - {flat};
    }
  }

  /** (namespace, name) of a history item to the upstream name. */
  function UpstreamToolName(digest: Name -> Hex, index: map<Name, Name>, namespace: Name, name: Name): Name {
    if Key(namespace, name) in index then index[Key(namespace, name)]
    else if namespace == [] then BoundedName(digest, name)
    else BoundedName(digest, namespace + SEPARATOR + name)
  }

  // ---- Allocation ----

  /** Wire name w of declaration d agrees with the tables. */
  ghost predicate Recorded(digest: Name -> Hex, d: Decl, w: Name, t: Tables) {
    && |w| <= LIMIT
    && ((d.namespace == [] && w == d.name)
        || (w in t.aliases && t.aliases[w] == Alias(d.namespace, d.name, d.custom)))
    && (d.namespace == [] && w == d.name ==> w !in t.aliases)
    && (w in t.customs <==> d.custom)
    && (d.namespace == [] && |d.name| <= LIMIT ==> w == d.name)
    && Derived(digest, if d.namespace == [] then d.name else d.namespace + SEPARATOR + d.name, w)
  }

  /** w is the name itself, cut to 64 bytes if need be, or one of its numbered alternatives. */
  ghost predicate Derived(digest: Name -> Hex, name: Name, w: Name) {
    var stem := BoundedName(digest, name);
    w == stem || exists k: nat :: 2 <= k && w == Candidate(stem, k)
  }

  lemma FirstFreeIsDerived(digest: Name -> Hex, name: Name, taken: set<Name>, w: Name)
    requires FirstFree(BoundedName(digest, name), taken, w)
    ensures Derived(digest, name, w)
  {
    hide Candidate, BoundedName;
    var stem := BoundedName(digest, name);
    if stem in taken {
      var k: nat :| FreeAt(stem, taken, w, k);
      assert w == Candidate(stem, k);
    }
  }

  ghost predicate Registered(digest: Name -> Hex, done: seq<Decl>, out: seq<Name>, taken: set<Name>, t: Tables) {
    && |out| == |done|
    && (forall i :: 0 <= i < |out| ==> out[i] in taken && Recorded(digest, done[i], out[i], t))
    && (forall i, j :: 0 <= i < j < |out| ==> out[i] != out[j])
    && (forall w :: w in t.aliases || w in t.customs ==> w in out)
  }

  /** Names chosen for the top level: distinct, bounded, all taken, and short names keep themselves. */
  ghost predicate TopLevel(digest: Name -> Hex, topNames: map<Name, Name>, taken: set<Name>) {
    && (forall n :: n in topNames ==> topNames[n] in taken && |topNames[n]| <= LIMIT && (|n| <= LIMIT ==> topNames[n] == n) && Derived(digest, n, topNames[n]))
    && (forall m, n :: m in topNames && n in topNames && m != n ==> topNames[m] != topNames[n])
  }

  /** What a caller can rely on after the declarations have been translated. */
  ghost predicate Translated(digest: Name -> Hex, decls: seq<Decl>, out: seq<Name>, t: Tables) {
    && |out| == |decls|
    && (forall i, j :: 0 <= i < j < |out| ==> out[i] != out[j])
    && (forall i :: 0 <= i < |out| ==> Recorded(digest, decls[i], out[i], t))
    && (forall w :: w in t.aliases || w in t.customs ==> w in out)
  }

  lemma RegisterOne(digest: Name -> Hex, done: seq<Decl>, out: seq<Name>, taken: set<Name>, t: Tables, d: Decl, w: Name)
    requires Registered(digest, done, out, taken, t)
    requires |w| <= LIMIT && w !in out && w in taken
    requires d.namespace == [] && |d.name| <= LIMIT ==> w == d.name
    requires Derived(digest, if d.namespace == [] then d.name else d.namespace + SEPARATOR + d.name, w)
    ensures Registered(digest, done + [d], out + [w], taken, Register(t, d, w))
  {
    var t' := Register(t, d, w);
    assert w !in t.aliases && w !in t.customs;
    forall i | 0 <= i < |out|
      ensures Recorded(digest, done[i], out[i], t')
    {
      assert Recorded(digest, done[i], out[i], t) && out[i] != w;
    }
    assert Recorded(digest, d, w, t');
    forall x | x in t'.aliases || x in t'.customs
      ensures x in out + [w]
    {
    }
  }

  function Register(t: Tables, d: Decl, w: Name): Tables {
    Tables(if d.namespace == [] && w == d.name then t.aliases else t.aliases[w := Alias(d.namespace, d.name, d.custom)],
           if d.custom then t.customs + {w} else t.customs)
  }

  /** The first two passes: reserve the short public names, then name every top-level tool. */
  method TopLevelNames(digest: Name -> Hex, tools: seq<Tool>) returns (topNames: map<Name, Name>, taken: set<Name>)
    requires 4 * |tools| <= MAX_LEN
    requires DistinctTops(tools)
    ensures TopLevel(digest, topNames, taken) && |taken| <= 2 * |tools|
    ensures forall j :: 0 <= j < |tools| && tools[j].Top? && tools[j].name != [] ==> tools[j].name in topNames
  {
    hide Decimal, Candidate, NamePrefix, DropBroken, BoundedName, FirstFree, FreeAt;
    taken := {};
    for i := 0 to |tools|
      invariant |taken| <= i
      invariant forall j :: 0 <= j < i && tools[j].Top? && tools[j].name != [] && |tools[j].name| <= LIMIT ==> tools[j].name in taken
    {
      if tools[i].Top? && tools[i].name != [] && |tools[i].name| <= LIMIT {
        taken := taken + {tools[i].name};
      }
    }
    ghost var reserved := taken;
    topNames := map[];
    for i := 0 to |tools|
      invariant |taken| <= |tools| + i && reserved <= taken
      invariant TopLevel(digest, topNames, taken)
      invariant forall n :: n in topNames ==> exists j :: 0 <= j < i && tools[j].Top? && tools[j].name == n
      invariant forall n :: n in topNames && |n| > LIMIT ==> topNames[n] !in reserved
      invariant forall j :: 0 <= j < i && tools[j].Top? && tools[j].name != [] ==> tools[j].name in topNames
    {
      if tools[i].Top? && tools[i].name != [] {
        var name := tools[i].name;
        assert name !in topNames;
        var alias := name;
        if |name| > LIMIT {
          alias := UniqueChatToolName(digest, name, taken);
          FirstFreeIsDerived(digest, name, taken, alias);
        } else {
          assert name in reserved;
        }
        topNames := topNames[name := alias];
        taken := taken + {alias};
      }
    }
  }

  ghost predicate DistinctTops(tools: seq<Tool>) {
    forall i, j :: 0 <= i < j < |tools| && tools[i].Top? && tools[j].Top? && tools[i].name != [] ==> tools[i].name != tools[j].name
  }

  function ChildCount(tool: Tool): nat {
    if tool.Namespace? then |tool.children| else 0
  }

  function Size(tools: seq<Tool>): nat {
    if tools == [] then 0
    else Size(tools[..|tools| - 1]) + 1 + ChildCount(tools[|tools| - 1])
  }

  lemma {:induction false} DeclaredPrefix(tools: seq<Tool>, i: nat)
    requires i <= |tools|
    ensures Declared(tools[..i]) <= Declared(tools)
    decreases |tools| - i
  {
    if i < |tools| {
      DeclaredPrefix(tools, i + 1);
      assert tools[..i + 1][..i] == tools[..i];
    } else {
      assert tools[..i] == tools;
    }
  }

  lemma NextDeclared(tools: seq<Tool>, i: nat)
    requires i < |tools|
    ensures Declared(tools[..i + 1]) == Declared(tools[..i]) + DeclsOf(tools[i])
    ensures Declared(tools[..i + 1]) <= Declared(tools)
  {
    assert tools[..i + 1][..i] == tools[..i];
    DeclaredPrefix(tools, i + 1);
  }

  lemma KeysDistinguishTops(tools: seq<Tool>)
    requires DistinctKeys(Declared(tools))
    ensures DistinctTops(tools)
  {
    forall i, j | 0 <= i < j < |tools| && tools[i].Top? && tools[j].Top? && tools[i].name != []
      ensures tools[i].name != tools[j].name
    {
      if tools[j].name != [] {
        TopsDiffer(tools, i, j);
      }
    }
  }

  lemma TopsDiffer(tools: seq<Tool>, i: nat, j: nat)
    requires DistinctKeys(Declared(tools)) && i < j < |tools|
    requires tools[i].Top? && tools[j].Top? && tools[i].name != [] && tools[j].name != []
    ensures tools[i].name != tools[j].name
  {
    hide *;
    var p, q := TopPosition(tools, i), TopPosition(tools, j);
    PositionsGrow(tools, i + 1, j);
    NoClash(Declared(tools), p, q);
  }

  lemma NoClash(decls: seq<Decl>, i: nat, j: nat)
    requires DistinctKeys(decls) && i < j < |decls|
    ensures decls[i].namespace == decls[j].namespace ==> decls[i].name != decls[j].name
  {
    assert !Clash(decls, i, j);
  }

  lemma PositionsGrow(tools: seq<Tool>, i: nat, j: nat)
    requires i <= j <= |tools|
    ensures |Declared(tools[..i])| <= |Declared(tools[..j])|
  {
    hide *;
    DeclaredPrefix(tools[..j], i);
    assert tools[..j][..i] == tools[..i];
  }

  /** Where a top-level tool stands among the declarations. */
  ghost function TopPosition(tools: seq<Tool>, i: nat): (p: nat)
    requires i < |tools| && tools[i].Top? && tools[i].name != []
    ensures p == |Declared(tools[..i])| < |Declared(tools[..i + 1])| <= |Declared(tools)|
    ensures Declared(tools)[p] == Decl([], tools[i].name, tools[i].custom)
  {
    NextDeclared(tools, i);
    |Declared(tools[..i])|
  }

  lemma {:induction false} SizeBounds(tools: seq<Tool>, i: nat)
    requires i <= |tools|
    ensures i <= Size(tools[..i]) <= Size(tools)
    ensures i < |tools| ==> Size(tools[..i + 1]) == Size(tools[..i]) + 1 + ChildCount(tools[i])
    decreases |tools| - i
  {
    SizeAtLeast(tools[..i]);
    if i < |tools| {
      SizeBounds(tools, i + 1);
      assert tools[..i + 1][..i] == tools[..i];
    } else {
      assert tools[..i] == tools;
    }
  }

  lemma {:induction false} SizeAtLeast(tools: seq<Tool>)
    ensures |tools| <= Size(tools)
  {
    if tools != [] {
      SizeAtLeast(tools[..|tools| - 1]);
    }
  }

  /** Top-level tools carry their chosen names, tools in namespaces none of them. */
  ghost predicate Split(done: seq<Decl>, out: seq<Name>, topNames: map<Name, Name>)
    requires |done| == |out|
  {
    forall i :: 0 <= i < |out| ==>
      if done[i].namespace == [] then done[i].name in topNames && out[i] == topNames[done[i].name]
      else out[i] !in topNames.Values
  }

  ghost predicate Consistent(digest: Name -> Hex, done: seq<Decl>, out: seq<Name>, taken: set<Name>, t: Tables, topNames: map<Name, Name>) {
    Registered(digest, done, out, taken, t) && TopLevel(digest, topNames, taken) && Split(done, out, topNames)
  }

  lemma AddChild(digest: Name -> Hex, done: seq<Decl>, out: seq<Name>, taken: set<Name>, t: Tables, topNames: map<Name, Name>, d: Decl, flat: Name)
    requires Consistent(digest, done, out, taken, t, topNames)
    requires d.namespace != [] && flat !in taken && |flat| <= LIMIT
    requires Derived(digest, d.namespace + SEPARATOR + d.name, flat)
    ensures Consistent(digest, done + [d], out + [flat], taken + {flat}, Register(t, d, flat), topNames)
  {
    assert flat !in topNames.Values;
    RegisterOne(digest, done, out, taken + {flat}, t, d, flat);
  }

  lemma AddTop(digest: Name -> Hex, done: seq<Decl>, out: seq<Name>, taken: set<Name>, t: Tables, topNames: map<Name, Name>, d: Decl)
    requires Consistent(digest, done, out, taken, t, topNames)
    requires d.namespace == [] && d.name in topNames && DistinctKeys(done + [d])
    ensures Consistent(digest, done + [d], out + [topNames[d.name]], taken, Register(t, d, topNames[d.name]), topNames)
  {
    var all := done + [d];
    forall j | 0 <= j < |out|
      ensures out[j] != topNames[d.name]
    {
      assert all[j] == done[j] && all[|done|] == d;
      assert !Clash(all, j, |done|);
    }
    RegisterOne(digest, done, out, taken, t, d, topNames[d.name]);
  }

  /** The third pass over one namespace: every child gets a fresh flat name. */
  method NamespaceTools(digest: Name -> Hex, namespace: Name, children: seq<Child>, ghost topNames: map<Name, Name>,
                        ghost done: seq<Decl>, out0: seq<Name>, taken0: set<Name>, t0: Tables)
    returns (out: seq<Name>, taken: set<Name>, t: Tables)
    requires Consistent(digest, done, out0, taken0, t0, topNames)
    requires |taken0| + |children| <= MAX_LEN
    ensures Consistent(digest, done + Children(namespace, children), out, taken, t, topNames)
    ensures |taken| <= |taken0| + |children|
  {
    hide Consistent, FirstFree, BoundedName;
    out, taken, t := out0, taken0, t0;
    assert done + [] == done;
    for j := 0 to |children|
      invariant Consistent(digest, done + Children(namespace, children[..j]), out, taken, t, topNames)
      invariant |taken| <= |taken0| + j
    {
      ghost var before := done + Children(namespace, children[..j]);
      assert children[..j + 1][..j] == children[..j];
      var child := children[j];
      if !Blank(namespace) && child.name != [] {
        var flat := UniqueChatToolName(digest, namespace + SEPARATOR + child.name, taken);
        FirstFreeIsDerived(digest, namespace + SEPARATOR + child.name, taken, flat);
        ghost var d := Decl(namespace, child.name, child.custom);
        AddChild(digest, before, out, taken, t, topNames, d, flat);
        assert before + [d] == done + Children(namespace, children[..j + 1]);
        taken := taken + {flat};
        out := out + [flat];
        t := Tables(t.aliases[flat := Alias(namespace, child.name, child.custom)],
                    if child.custom then t.customs + {flat} else t.customs);
      }
    }
    assert children[..|children|] == children;
  }

  /** The third pass over one entry of the tool list. */
  method TranslateTool(digest: Name -> Hex, tool: Tool, topNames: map<Name, Name>,
                       ghost done: seq<Decl>, out0: seq<Name>, taken0: set<Name>, t0: Tables)
    returns (out: seq<Name>, taken: set<Name>, t: Tables)
    requires Consistent(digest, done, out0, taken0, t0, topNames)
    requires |taken0| + ChildCount(tool) <= MAX_LEN
    requires tool.Top? && tool.name != [] ==> tool.name in topNames
    requires DistinctKeys(done + DeclsOf(tool))
    ensures Consistent(digest, done + DeclsOf(tool), out, taken, t, topNames)
    ensures |taken| <= |taken0| + ChildCount(tool)
  {
    hide Consistent, Children, DistinctKeys;
    out, taken, t := out0, taken0, t0;
    if tool.Top? && tool.name != [] {
      var alias := topNames[tool.name];
      ghost var d := Decl([], tool.name, tool.custom);
      AddTop(digest, done, out, taken, t, topNames, d);
      out := out + [alias];
      t := Tables(if alias == tool.name then t.aliases else t.aliases[alias := Alias([], tool.name, tool.custom)],
                  if tool.custom then t.customs + {alias} else t.customs);
    } else if tool.Namespace? {
      out, taken, t := NamespaceTools(digest, tool.name, tool.children, topNames, done, out, taken, t);
    } else {
      assert done + [] == done;
    }
  }

  /**
   The whole translation of a tool list that passed the duplicate check: the wire names are pairwise
   distinct and at most 64 bytes long, and the tables record each of them.
   */
  method ResponsesTools(digest: Name -> Hex, tools: seq<Tool>) returns (out: seq<Name>, t: Tables)
    requires 4 * Size(tools) <= MAX_LEN
    requires DistinctKeys(Declared(tools))
    ensures Translated(digest, Declared(tools), out, t)
  {
    SizeAtLeast(tools);
    KeysDistinguishTops(tools);
    var topNames, taken := TopLevelNames(digest, tools);
    out, t := [], Tables(map[], {});
    NothingYet(digest, taken, topNames);
    assert Declared(tools[..0]) == [];
    hide *;
    for i := 0 to |tools|
      invariant Consistent(digest, Declared(tools[..i]), out, taken, t, topNames)
      invariant |taken| <= 2 * |tools| + Size(tools[..i])
    {
      ghost var done := Declared(tools[..i]);
      NextTool(tools, i);
      out, taken, t := TranslateTool(digest, tools[i], topNames, done, out, taken, t);
    }
    assert tools[..|tools|] == tools;
    ConsistentIsTranslated(digest, Declared(tools), out, taken, t, topNames);
  }

  lemma NextTool(tools: seq<Tool>, i: nat)
    requires i < |tools| && DistinctKeys(Declared(tools))
    ensures Declared(tools[..i + 1]) == Declared(tools[..i]) + DeclsOf(tools[i])
    ensures DistinctKeys(Declared(tools[..i]) + DeclsOf(tools[i]))
    ensures Size(tools[..i]) + ChildCount(tools[i]) < Size(tools[..i + 1]) <= Size(tools)
  {
    NextDeclared(tools, i);
    SizeBounds(tools, i);
    SizeBounds(tools, i + 1);
    PrefixDistinct(Declared(tools), Declared(tools[..i + 1]));
  }

  lemma NothingYet(digest: Name -> Hex, taken: set<Name>, topNames: map<Name, Name>)
    requires TopLevel(digest, topNames, taken)
    ensures Consistent(digest, [], [], taken, Tables(map[], {}), topNames)
  {
  }

  lemma PrefixDistinct(all: seq<Decl>, some: seq<Decl>)
    requires DistinctKeys(all) && some <= all
    ensures DistinctKeys(some)
  {
    assert forall i, j :: Clash(some, i, j) ==> Clash(all, i, j);
  }

  lemma ConsistentIsTranslated(digest: Name -> Hex, done: seq<Decl>, out: seq<Name>, taken: set<Name>, t: Tables, topNames: map<Name, Name>)
    requires Consistent(digest, done, out, taken, t, topNames)
    ensures Translated(digest, done, out, t)
  {
  }

  // ---- The round trip ----

  /** A wire name maps back to the declaration it was made for. */
  lemma WireToDeclaration(digest: Name -> Hex, decls: seq<Decl>, out: seq<Name>, t: Tables, i: nat)
    requires Translated(digest, decls, out, t) && i < |decls|
    ensures ResponsesToolName(t, out[i]) == decls[i]
  {
    assert Recorded(digest, decls[i], out[i], t);
  }

  /** A declared (namespace, name) in the history is written back under its wire name. */
  lemma DeclarationToWire(digest: Name -> Hex, decls: seq<Decl>, out: seq<Name>, t: Tables, index: map<Name, Name>, i: nat)
    requires Translated(digest, decls, out, t) && DistinctKeys(decls) && IsIndex(index, t.aliases) && i < |decls|
    ensures UpstreamToolName(digest, index, decls[i].namespace, decls[i].name) == out[i]
  {
    hide Derived, BoundedName, DropBroken, NamePrefix;
    var key := Key(decls[i].namespace, decls[i].name);
    assert Recorded(digest, decls[i], out[i], t);
    if key in index {
      var flat := index[key];
      var j :| 0 <= j < |out| && out[j] == flat;
      assert Recorded(digest, decls[j], out[j], t);
      assert !Clash(decls, i, j) && !Clash(decls, j, i);
    }
  }

  /** A tool of the history that is not declared keeps its name, with its namespace in front, shortened if need be. */
  lemma UndeclaredToWire(digest: Name -> Hex, index: map<Name, Name>, namespace: Name, name: Name)
    requires Key(namespace, name) !in index
    ensures Shortened(digest, if namespace == [] then name else namespace + [95, 95] + name, UpstreamToolName(digest, index, namespace, name))
  {
    BoundedNameShortens(digest, if namespace == [] then name else namespace + SEPARATOR + name);
    hide Shortened;
  }

  /** Different declared tools never share a wire name, and none is longer than 64 bytes. */
  lemma WireNamesDistinct(digest: Name -> Hex, decls: seq<Decl>, out: seq<Name>, t: Tables, i: nat, j: nat)
    requires Translated(digest, decls, out, t) && i < |out| && j < |out|
    ensures out[i] == out[j] <==> i == j
    ensures |out[i]| <= LIMIT
  {
    assert Recorded(digest, decls[i], out[i], t);
  }
}
