// The string functions of Go's standard library that the service relies on.
// The Unicode tables behind lower-casing and white space are a parameter: every
// result holds for any table that obeys the few facts in Lawful.
module Text {

  datatype Table = Table(lower: char -> char, space: char -> bool)

  predicate Alnum(c: char) {
    'a' <= c <= 'z' || '0' <= c <= '9'
  }

  ghost predicate Lawful(t: Table) {
    && (forall c: char {:trigger t.lower(c)} | Alnum(c) || c == '-' :: t.lower(c) == c)
    && (forall c: char {:trigger t.lower(c)} | t.space(c) :: !Alnum(t.lower(c)))
    && (forall c: char {:trigger t.space(t.lower(c))} | !t.space(c) :: !t.space(t.lower(c)))
    && (forall c: char {:trigger t.lower(t.lower(c))} :: t.lower(t.lower(c)) == t.lower(c))
  }

  // The ASCII part of Go's tables obeys them.
  lemma AsciiIsLawful()
    ensures Lawful(Table(c => if 'A' <= c <= 'Z' then c + 32 as char else c, c => c in " \t\n\r"))
  {}

  ghost predicate All(p: char -> bool, s: string) {
    forall i | 0 <= i < |s| :: p(s[i])
  }

  function ToLower(t: Table, s: string): (r: string)
    ensures |r| == |s|
    ensures forall i | 0 <= i < |s| :: r[i] == t.lower(s[i])
  {
    seq(|s|, i requires 0 <= i < |s| => t.lower(s[i]))
  }

  function TrimLeft(p: char -> bool, s: string): (r: string)
    ensures |r| <= |s| && r == s[|s| - |r|..] && All(p, s[..|s| - |r|])
    ensures r == [] || !p(r[0])
  {
    if s != [] && p(s[0]) then TrimLeft(p, s[1..]) else s
  }

  function TrimRight(p: char -> bool, s: string): (r: string)
    ensures |r| <= |s| && r == s[..|r|] && All(p, s[|r|..])
    ensures r == [] || !p(r[|r| - 1])
  {
    if s != [] && p(s[|s| - 1]) then TrimRight(p, s[..|s| - 1]) else s
  }

  function Trim(p: char -> bool, s: string): string {
    TrimRight(p, TrimLeft(p, s))
  }

  function TrimSpace(t: Table, s: string): string {
    Trim(t.space, s)
  }

  // s is `left + r + right`, both outer parts consist of p-characters, and r has
  // no p-character at either edge.
  ghost predicate IsTrim(p: char -> bool, s: string, left: string, r: string, right: string) {
    && s == left + r + right
    && All(p, left) && All(p, right)
    && (r == [] || (!p(r[0]) && !p(r[|r| - 1])))
  }

  lemma TrimSplits(p: char -> bool, s: string) returns (left: string, right: string)
    ensures IsTrim(p, s, left, Trim(p, s), right)
  {
    hide All, TrimLeft, TrimRight;
    var l := TrimLeft(p, s);
    var r := TrimRight(p, l);
    left, right := s[..|s| - |l|], l[|r|..];
    Regroup(s, left, l, r, right);
    assert r != [] ==> r[0] == l[0] && !p(l[0]);
  }

  lemma Regroup(s: string, left: string, l: string, r: string, right: string)
    requires |l| <= |s| && |r| <= |l|
    requires left == s[..|s| - |l|] && l == s[|s| - |l|..] && r == l[..|r|] && right == l[|r|..]
    ensures s == left + r + right
  {
    assert l == r + right;
    assert s == left + l;
  }

  // Trim is the only string that IsTrim admits.
  lemma {:induction false} TrimIsUnique(p: char -> bool, s: string, left: string, r: string, right: string)
    requires IsTrim(p, s, left, r, right)
    ensures Trim(p, s) == r
    decreases |left| + |right|
  {
    if left != [] {
      assert s[0] == left[0] && s[1..] == left[1..] + r + right;
      assert forall i | 0 <= i < |left| - 1 :: left[1..][i] == left[i + 1];
      TrimIsUnique(p, s[1..], left[1..], r, right);
    } else if r == [] {
      TrimAll(p, s);
    } else {
      assert s == r + right && s[0] == r[0];
      TrimRightDrops(p, r, right);
    }
  }

  // What is left of a text when its outer white space goes: no more and no less.
  lemma TrimSpaceMeans(t: Table, s: string, r: string)
    ensures TrimSpace(t, s) == r <==> exists left, right :: IsTrim(t.space, s, left, r, right)
  {
    var left, right := TrimSplits(t.space, s);
    hide IsTrim, Trim;
    forall left', right' | IsTrim(t.space, s, left', r, right') ensures TrimSpace(t, s) == r {
      TrimIsUnique(t.space, s, left', r, right');
    }
  }

  lemma {:induction false} TrimAll(p: char -> bool, s: string)
    requires All(p, s)
    ensures TrimLeft(p, s) == []
  {
    if s != [] {
      assert forall i | 0 <= i < |s| - 1 :: s[1..][i] == s[i + 1];
      TrimAll(p, s[1..]);
    }
  }

  lemma {:induction false} TrimRightDrops(p: char -> bool, r: string, right: string)
    requires All(p, right) && (r == [] || !p(r[|r| - 1]))
    ensures TrimRight(p, r + right) == r
  {
    var s := r + right;
    if right == [] {
      assert s == r;
    } else {
      assert s[|s| - 1] == right[|right| - 1];
      assert s[..|s| - 1] == r + right[..|right| - 1];
      TrimRightDrops(p, r, right[..|right| - 1]);
    }
  }

  // strings.ToLower(strings.TrimSpace(raw)), the form in which e-mail addresses
  // are stored and looked up.
  function Normalize(t: Table, raw: string): string {
    ToLower(t, TrimSpace(t, raw))
  }

  // The text between the outer white space, lower-cased character by character.
  lemma NormalizeMeans(t: Table, raw: string, left: string, mid: string, right: string)
    requires IsTrim(t.space, raw, left, mid, right)
    ensures |Normalize(t, raw)| == |mid|
    ensures forall i | 0 <= i < |mid| :: Normalize(t, raw)[i] == t.lower(mid[i])
  {
    TrimIsUnique(t.space, raw, left, mid, right);
    hide Trim;
  }

  // `e` is the text between the outer white space of `raw`, with every character in
  // lower case: another spelling of the same address.
  ghost predicate Spells(t: Table, raw: string, e: string) {
    exists left, mid, right ::
      IsTrim(t.space, raw, left, mid, right) && |e| == |mid| && forall i | 0 <= i < |e| :: e[i] == t.lower(mid[i])
  }

  lemma NormalizeIsSpelled(t: Table, raw: string, e: string)
    ensures Spells(t, raw, e) <==> Normalize(t, raw) == e
  {
    var left, right := TrimSplits(t.space, raw);
    var mid := TrimSpace(t, raw);
    assert IsTrim(t.space, raw, left, mid, right);
    hide Trim, IsTrim;
    forall l, m, r | IsTrim(t.space, raw, l, m, r) ensures m == mid { TrimIsUnique(t.space, raw, l, m, r); }
  }

  // No outer white space is left, and no character that lower-casing would change.
  lemma NormalizeIsClean(t: Table, raw: string)
    requires Lawful(t)
    ensures var e := Normalize(t, raw);
      && (forall i | 0 <= i < |e| :: t.lower(e[i]) == e[i])
      && (e != "" ==> !t.space(e[0]) && !t.space(e[|e| - 1]))
  {
    var left, right := TrimSplits(t.space, raw);
    var mid := TrimSpace(t, raw);
    NormalizeMeans(t, raw, left, mid, right);
    var e := Normalize(t, raw);
    hide Trim, Lawful, Normalize;
    forall i | 0 <= i < |e| ensures t.lower(e[i]) == e[i] { LowerTwice(t, mid[i]); }
    if e != "" {
      LowerKeepsText(t, mid[0]);
      LowerKeepsText(t, mid[|mid| - 1]);
    }
  }

  lemma CleanIsNormal(t: Table, e: string)
    requires forall i | 0 <= i < |e| :: t.lower(e[i]) == e[i]
    requires e != "" ==> !t.space(e[0]) && !t.space(e[|e| - 1])
    ensures Normalize(t, e) == e
  {
    assert IsTrim(t.space, e, [], e, []) by { assert e == [] + e + []; }
    TrimIsUnique(t.space, e, [], e, []);
    hide Trim;
  }

  // Normalising a second time changes nothing, for the result is clean already.
  lemma NormalizeIsIdempotent(t: Table, raw: string)
    requires Lawful(t)
    ensures Normalize(t, Normalize(t, raw)) == Normalize(t, raw)
    ensures var e := Normalize(t, raw);
      && (forall i | 0 <= i < |e| :: t.lower(e[i]) == e[i])
      && (e != "" ==> !t.space(e[0]) && !t.space(e[|e| - 1]))
  {
    NormalizeIsClean(t, raw);
    hide Lawful, Normalize;
    CleanIsNormal(t, Normalize(t, raw));
  }

  lemma LowerTwice(t: Table, c: char)
    requires Lawful(t)
    ensures t.lower(t.lower(c)) == t.lower(c)
  {}

  lemma LowerKeepsText(t: Table, c: char)
    requires Lawful(t) && !t.space(c)
    ensures !t.space(t.lower(c))
  {}

  function Join(parts: seq<string>, separator: char): string {
    if parts == [] then []
    else if |parts| == 1 then parts[0]
    else parts[0] + [separator] + Join(parts[1..], separator)
  }
}
