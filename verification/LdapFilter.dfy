/** Escaping of LDAP filter values (section 3 of RFC 4515) by five replacement
    passes, and the choice of a user's group among the imported ones. */
module LdapFilter {
  import opened Options
  import opened Text

  /** One pass: every occurrence of a character becomes a string. */
  datatype Pass = Pass(raw: char, repl: string)

  const PASSES: seq<Pass> :=
    [Pass('\\', "\\5c"), Pass('*', "\\2a"), Pass('(', "\\28"), Pass(')', "\\29"), Pass('\0', "\\00")]

  function ReplaceAll(s: string, p: Pass): string {
    if s == "" then "" else (if s[0] == p.raw then p.repl else [s[0]]) + ReplaceAll(s[1..], p)
  }

  function Passes(ps: seq<Pass>, s: string): string {
    if ps == [] then s else Passes(ps[1..], ReplaceAll(s, ps[0]))
  }

  method Escape(value: string) returns (r: string)
    ensures r == AtOnce(PASSES, value) && Decode(r) == Some(value)
  {
    EscapeMeansItsInput(value);
    r := value;
    for i := 0 to |PASSES|
      invariant Passes(PASSES, value) == Passes(PASSES[i..], r)
    {
      r := ReplaceAll(r, PASSES[i]);
    }
  }

  // ------------------------------------- passes and simultaneous escaping

  function At(ps: seq<Pass>, c: char): string {
    if ps == [] then [c] else if ps[0].raw == c then ps[0].repl else At(ps[1..], c)
  }

  /** Every character replaced at once. */
  function AtOnce(ps: seq<Pass>, s: string): string {
    if s == "" then "" else At(ps, s[0]) + AtOnce(ps, s[1..])
  }

  /** No pass rewrites what an earlier pass has put in. */
  predicate Independent(ps: seq<Pass>) {
    forall i, j | 0 <= i < j < |ps| :: ps[j].raw !in ps[i].repl
  }

  lemma {:induction false} ReplaceAllSplits(a: string, b: string, p: Pass)
    ensures ReplaceAll(a + b, p) == ReplaceAll(a, p) + ReplaceAll(b, p)
  {
    if a == "" { assert a + b == b; }
    else {
      assert (a + b)[1..] == a[1..] + b;
      ReplaceAllSplits(a[1..], b, p);
    }
  }

  lemma {:induction false} PassesSplit(ps: seq<Pass>, a: string, b: string)
    ensures Passes(ps, a + b) == Passes(ps, a) + Passes(ps, b)
  {
    if ps != [] {
      ReplaceAllSplits(a, b, ps[0]);
      PassesSplit(ps[1..], ReplaceAll(a, ps[0]), ReplaceAll(b, ps[0]));
    }
  }

  lemma {:induction false} ReplaceNothing(s: string, p: Pass)
    requires p.raw !in s
    ensures ReplaceAll(s, p) == s
  {
    if s != "" { ReplaceNothing(s[1..], p); }
  }

  lemma {:induction false} PassesNothing(ps: seq<Pass>, s: string)
    requires forall j | 0 <= j < |ps| :: ps[j].raw !in s
    ensures Passes(ps, s) == s
  {
    if ps != [] {
      ReplaceNothing(s, ps[0]);
      PassesNothing(ps[1..], s);
    }
  }

  lemma {:induction false} PassesOnChar(ps: seq<Pass>, c: char)
    requires Independent(ps)
    ensures Passes(ps, [c]) == At(ps, c)
  {
    if ps != [] {
      assert [c][1..] == "";
      assert ReplaceAll([c], ps[0]) == if c == ps[0].raw then ps[0].repl else [c];
      if c == ps[0].raw {
        PassesNothing(ps[1..], ps[0].repl);
      } else {
        PassesOnChar(ps[1..], c);
      }
    }
  }

  lemma {:induction false} PassesAreAtOnce(ps: seq<Pass>, s: string)
    requires Independent(ps)
    ensures Passes(ps, s) == AtOnce(ps, s)
  {
    if s == "" {
      PassesNothing(ps, s);
    } else {
      assert s == [s[0]] + s[1..];
      PassesSplit(ps, [s[0]], s[1..]);
      PassesOnChar(ps, s[0]);
      PassesAreAtOnce(ps, s[1..]);
    }
  }

  // ----------------------------------------------------- order of the passes

  predicate IsPass(p: Pass) { p in PASSES }
  predicate Reordered(ps: seq<Pass>) { |ps| == |PASSES| && multiset(ps) == multiset(PASSES) }

  lemma {:induction false} ReplaceAllGrows(s: string, p: Pass)
    requires IsPass(p)
    ensures |ReplaceAll(s, p)| >= |s| + if p.raw in s then 2 else 0
    ensures '\\' in s ==> '\\' in ReplaceAll(s, p)
  {
    if s != "" {
      ReplaceAllGrows(s[1..], p);
      assert '\\' in p.repl && |p.repl| == 3;
    }
  }

  /** A string that already holds a backslash grows once the backslash pass comes. */
  lemma {:induction false} BackslashPassGrows(ps: seq<Pass>, s: string)
    requires forall i | 0 <= i < |ps| :: IsPass(ps[i])
    requires '\\' in s
    ensures |Passes(ps, s)| >= |s| + if PASSES[0] in ps then 2 else 0
  {
    if ps != [] {
      ReplaceAllGrows(s, ps[0]);
      BackslashPassGrows(ps[1..], ReplaceAll(s, ps[0]));
    }
  }

  /** Of all orders of the five passes, exactly those that begin with the
      backslash escape every string at once. */
  lemma BackslashFirstIff(ps: seq<Pass>)
    requires Reordered(ps)
    ensures (forall s :: Passes(ps, s) == AtOnce(PASSES, s)) <==> ps[0] == PASSES[0]
  {
    if ps[0] == PASSES[0] {
      ReorderedIndependent(ps);
      forall s ensures Passes(ps, s) == AtOnce(PASSES, s) {
        PassesAreAtOnce(ps, s);
        SameAtOnce(ps, s);
      }
    } else {
      BackslashLate(ps);
    }
  }

  /** With the backslash pass later, the first pass's own character comes out
      too long. */
  lemma BackslashLate(ps: seq<Pass>)
    requires Reordered(ps) && ps[0] != PASSES[0]
    ensures var s := [ps[0].raw]; |Passes(ps, s)| > 3 == |AtOnce(PASSES, s)|
  {
    ReorderedHolds(ps);
    PassShape(ps[0]);
    hide Reordered, IsPass, AtOnce;
    var s, p := [ps[0].raw], ps[0];
    assert ReplaceAll(s, p) == p.repl + ReplaceAll(s[1..], p);
    assert s[1..] == "" && p.repl + "" == p.repl;
    assert PASSES[0] in ps[1..];
    BackslashPassGrows(ps[1..], p.repl);
  }

  lemma PassShape(p: Pass)
    requires IsPass(p)
    ensures |p.repl| == 3 && '\\' in p.repl && |AtOnce(PASSES, [p.raw])| == 3
  {
    HeadOf(p.raw);
    assert [p.raw][1..] == "";
    assert AtOnce(PASSES, [p.raw]) == At(PASSES, p.raw) + "";
    var i :| 0 <= i < |PASSES| && PASSES[i] == p;
    assert p.repl[0] == '\\';
  }

  lemma ReorderedHolds(ps: seq<Pass>)
    requires Reordered(ps)
    ensures PASSES[0] in ps && forall i | 0 <= i < |ps| :: IsPass(ps[i])
  {
    forall i | 0 <= i < |ps| ensures IsPass(ps[i]) { assert ps[i] in multiset(ps); }
    assert PASSES[0] in multiset(ps);
  }

  lemma ReorderedIndependent(ps: seq<Pass>)
    requires Reordered(ps) && ps[0] == PASSES[0]
    ensures Independent(ps)
  {
    forall i, j | 0 <= i < j < |ps| ensures ps[j].raw !in ps[i].repl {
      assert ps[j] in multiset(ps) && ps[i] in multiset(ps);
      assert multiset(ps) == multiset([ps[0]]) + multiset(ps[1..]) by { assert ps == [ps[0]] + ps[1..]; }
      assert multiset(PASSES)[PASSES[0]] == 1;
      var p := ps[1..][j - 1];
      assert p in multiset(ps[1..]) && p != PASSES[0];
    }
  }

  lemma {:induction false} AtFinds(ps: seq<Pass>, p: Pass)
    requires p in ps && forall q | q in ps && q.raw == p.raw :: q == p
    ensures At(ps, p.raw) == p.repl
  {
    if ps[0] != p { AtFinds(ps[1..], p); }
  }

  lemma {:induction false} AtMisses(ps: seq<Pass>, c: char)
    requires forall q | q in ps :: q.raw != c
    ensures At(ps, c) == [c]
  {
    if ps != [] { AtMisses(ps[1..], c); }
  }

  lemma SameAt(ps: seq<Pass>, c: char)
    requires Reordered(ps)
    ensures At(ps, c) == At(PASSES, c)
  {
    forall q ensures q in ps <==> q in PASSES { assert q in multiset(ps) <==> q in multiset(PASSES); }
    if p :| p in PASSES && p.raw == c {
      AtFinds(ps, p);
      AtFinds(PASSES, p);
    } else {
      AtMisses(ps, c);
      AtMisses(PASSES, c);
    }
  }

  lemma {:induction false} SameAtOnce(ps: seq<Pass>, s: string)
    requires Reordered(ps)
    ensures AtOnce(ps, s) == AtOnce(PASSES, s)
  {
    hide At, Reordered;
    if s != "" {
      SameAt(ps, s[0]);
      SameAtOnce(ps, s[1..]);
    }
  }

  // ------------------------------------------------------ reading it back

  function HexVal(c: char): Option<int> {
    if '0' <= c <= '9' then Some(c as int - '0' as int)
    else if 'a' <= c <= 'f' then Some(c as int - 'a' as int + 10)
    else if 'A' <= c <= 'F' then Some(c as int - 'A' as int + 10)
    else None
  }

  predicate Special(c: char) { c == '*' || c == '(' || c == ')' || c == '\0' }

  /** What a directory server reads: a backslash and two hexadecimal digits
      stand for a character; a special character may not stand for itself. */
  function Decode(s: string): Option<string> {
    if s == "" then Some("")
    else if s[0] == '\\' then
      if |s| < 3 || HexVal(s[1]).None? || HexVal(s[2]).None? then None
      else
        var rest := Decode(s[3..]);
        if rest.None? then None else Some([(HexVal(s[1]).value * 16 + HexVal(s[2]).value) as char] + rest.value)
    else if Special(s[0]) then None
    else
      var rest := Decode(s[1..]);
      if rest.None? then None else Some([s[0]] + rest.value)
  }

  /** Round trip: the escaped value is a legal assertion value and means exactly
      the input, so different inputs never collide. */
  lemma {:induction false} DecodeEscaped(s: string)
    ensures Decode(AtOnce(PASSES, s)) == Some(s)
  {
    if s != "" {
      DecodeEscaped(s[1..]);
      var rest := AtOnce(PASSES, s[1..]);
      var head := At(PASSES, s[0]);
      HeadOf(s[0]);
      assert s == [s[0]] + s[1..];
      if |head| == 3 {
        assert (head + rest)[0] == head[0] && (head + rest)[1] == head[1] && (head + rest)[2] == head[2];
        assert (head + rest)[3..] == rest;
      } else {
        assert (head + rest)[0] == s[0] && (head + rest)[1..] == rest;
      }
    }
  }

  lemma HeadOf(c: char)
    ensures var h := At(PASSES, c);
            if Special(c) || c == '\\'
            then |h| == 3 && h[0] == '\\' && HexVal(h[1]).Some? && HexVal(h[2]).Some?
                 && HexVal(h[1]).value * 16 + HexVal(h[2]).value == c as int
            else h == [c]
  {
    if i :| 0 <= i < |PASSES| && PASSES[i].raw == c {
      AtFinds(PASSES, PASSES[i]);
    } else {
      assert forall q | q in PASSES :: q.raw != c;
      assert c != '\\' by { assert PASSES[0].raw != c; }
      assert !Special(c) by { assert PASSES[1].raw != c && PASSES[2].raw != c && PASSES[3].raw != c && PASSES[4].raw != c; }
      AtMisses(PASSES, c);
    }
  }

  /** No raw special character, hence no bracket or wildcard of the value's own:
      put into a filter before `rest`, the first special one is `rest`'s. */
  lemma {:induction false} EscapedHasNoSpecial(s: string)
    ensures forall i | 0 <= i < |AtOnce(PASSES, s)| :: !Special(AtOnce(PASSES, s)[i])
  {
    if s != "" { EscapedHasNoSpecial(s[1..]); HeadOf(s[0]); }
  }

  /** What section 3 of RFC 4515 asks of the five passes, for every value: all
      characters escaped at once, nothing special left, and the value back. */
  lemma EscapeMeansItsInput(s: string)
    ensures Passes(PASSES, s) == AtOnce(PASSES, s)
    ensures Decode(Passes(PASSES, s)) == Some(s)
    ensures forall i | 0 <= i < |Passes(PASSES, s)| :: !Special(Passes(PASSES, s)[i])
  {
    PassesAreAtOnce(PASSES, s);
    DecodeEscaped(s);
    EscapedHasNoSpecial(s);
  }

  // --------------------------------------------------------- group mapping

  datatype Group = Group(name: string, dn: string, role: string)

  function Rank(role: string): nat { if role == "admin" then 2 else if role == "operator" then 1 else 0 }

  /** Admins above operators above everybody else. */
  lemma RolesRank(role: string)
    ensures Rank("admin") > Rank("operator") > Rank("viewer")
    ensures role != "admin" && role != "operator" ==> Rank(role) == Rank("viewer")
  {
  }

  predicate Direct(g: Group, memberOf: seq<string>) {
    exists m :: m in memberOf && Lower(m) == Lower(g.dn)
  }

  /** Membership is by DN, letter for letter but for case. */
  lemma DirectIgnoresCase(g: Group, memberOf: seq<string>)
    ensures Direct(g, memberOf) <==> exists m :: m in memberOf && SameLetters(m, g.dn)
  {
    hide Lower, SameLetters;
    forall m: string ensures Lower(m) == Lower(g.dn) <==> SameLetters(m, g.dn) { LowerEqualIff(m, g.dn); }
  }

  predicate SameLetters(a: string, b: string) {
    |a| == |b| && forall i | 0 <= i < |a| :: SameLetter(a[i], b[i])
  }

  lemma OneLetter(a: char, b: char)
    ensures LowerChar(a) == LowerChar(b) <==> SameLetter(a, b)
  {
  }

  lemma LowerEqualIff(a: string, b: string)
    ensures Lower(a) == Lower(b) <==> SameLetters(a, b)
  {
    forall i | 0 <= i < |a| && i < |b| ensures Lower(a)[i] == Lower(b)[i] <==> SameLetter(a[i], b[i]) { OneLetter(a[i], b[i]); }
    hide SameLetter, Lower;
    if SameLetters(a, b) { assert Lower(a) == Lower(b); }
  }

  predicate SameLetter(a: char, b: char) {
    a == b || ('A' <= a <= 'Z' && b as int == a as int + 32) || ('A' <= b <= 'Z' && a as int == b as int + 32)
  }

  /** The first of the highest-ranked groups among those that qualify. */
  ghost predicate IsBest(groups: seq<Group>, best: Option<Group>, ok: Group -> bool) {
    match best
    case None => forall g :: g in groups ==> !ok(g)
    case Some(b) => exists k :: BestAt(groups, k, ok) && groups[k] == b
  }

  ghost predicate BestAt(groups: seq<Group>, k: int, ok: Group -> bool) {
    && 0 <= k < |groups| && ok(groups[k])
    && forall j | 0 <= j < |groups| && ok(groups[j]) ::
         Rank(groups[j].role) <= Rank(groups[k].role) && (j < k ==> Rank(groups[j].role) < Rank(groups[k].role))
  }

  /** The winner is unique. */
  lemma BestIsUnique(groups: seq<Group>, a: Option<Group>, b: Option<Group>, ok: Group -> bool)
    requires IsBest(groups, a, ok) && IsBest(groups, b, ok)
    ensures a == b
  {
  }

  /** `nested` answers the recursive membership query of a group's DN. */
  method MatchUserToGroups(memberOf: seq<string>, userDn: string, groups: seq<Group>, nestedOn: bool, nested: string -> bool)
      returns (best: Option<Group>)
    ensures if exists g :: g in groups && Direct(g, memberOf) then IsBest(groups, best, (g: Group) => Direct(g, memberOf))
            else if nestedOn && userDn != "" then IsBest(groups, best, (g: Group) => nested(g.dn))
            else best.None?
  {
    var lowered := set m | m in memberOf :: Lower(m);
    best := None;
    for i := 0 to |groups|
      invariant IsBest(groups[..i], best, (g: Group) => Direct(g, memberOf))
    {
      var g := groups[i];
      assert Lower(g.dn) in lowered <==> Direct(g, memberOf);
      BestGrows(groups[..i], best, g, (g: Group) => Direct(g, memberOf));
      assert groups[..i + 1] == groups[..i] + [g];
      if Lower(g.dn) in lowered {
        if best.None? || Rank(g.role) > Rank(best.value.role) { best := Some(g); }
      }
    }
    assert groups[..|groups|] == groups;
    if best.None? && nestedOn && userDn != "" {
      for i := 0 to |groups|
        invariant IsBest(groups[..i], best, (g: Group) => nested(g.dn))
      {
        var g := groups[i];
        BestGrows(groups[..i], best, g, (g: Group) => nested(g.dn));
        assert groups[..i + 1] == groups[..i] + [g];
        if nested(g.dn) {
          if best.None? || Rank(g.role) > Rank(best.value.role) { best := Some(g); }
        }
      }
    }
  }

  /** One more group: it wins only with a strictly higher rank. */
  lemma BestGrows(groups: seq<Group>, best: Option<Group>, g: Group, ok: Group -> bool)
    requires IsBest(groups, best, ok)
    ensures IsBest(groups + [g], if ok(g) && (best.None? || Rank(g.role) > Rank(best.value.role)) then Some(g) else best, ok)
  {
    var all := groups + [g];
    if ok(g) && (best.None? || Rank(g.role) > Rank(best.value.role)) {
      assert BestAt(all, |groups|, ok);
    } else if best.Some? {
      var k :| BestAt(groups, k, ok) && groups[k] == best.value;
      assert BestAt(all, k, ok);
    }
  }
}
