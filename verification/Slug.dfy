// Workspace slugs: internal/application/workspace/create_workspace.go.
module Slug {
  import opened Text

  predicate NotAlnum(c: char) {
    !Alnum(c)
  }

  // nonSlug.ReplaceAllString(s, "-"): every maximal run becomes one dash.
  function ReplaceRuns(s: string): string
    decreases |s|
  {
    if s == [] then []
    else if Alnum(s[0]) then [s[0]] + ReplaceRuns(s[1..])
    else ['-'] + ReplaceRuns(TrimLeft(NotAlnum, s))
  }

  predicate IsDash(c: char) {
    c == '-'
  }

  function OrDefault(s: string): string {
    if s == "" then "workspace" else s
  }

  function Slugify(t: Table, name: string): string {
    OrDefault(Trim(IsDash, ReplaceRuns(ToLower(t, TrimSpace(t, name)))))
  }

  // ---- Independent description: maximal [a-z0-9] runs ----

  function Weave(gaps: seq<string>, runs: seq<string>): string
    requires |gaps| == |runs| + 1
  {
    if runs == [] then gaps[0] else gaps[0] + runs[0] + Weave(gaps[1..], runs[1..])
  }

  // Gap, run, gap, ..., run, gap: only the first and the last gap may be empty.
  ghost predicate Alternate(gaps: seq<string>, runs: seq<string>) {
    && |gaps| == |runs| + 1
    && (forall i | 0 <= i < |gaps| :: All(NotAlnum, gaps[i]))
    && (forall i | 0 <= i < |runs| :: runs[i] != [] && All(Alnum, runs[i]))
    && (forall i | 0 < i < |runs| :: gaps[i] != [])
  }

  // The maximal runs of [a-z0-9] in s are `runs`, separated by `gaps`.
  ghost predicate HasRuns(s: string, gaps: seq<string>, runs: seq<string>) {
    Alternate(gaps, runs) && s == Weave(gaps, runs)
  }

  function Dashed(runs: seq<string>): string {
    OrDefault(Join(runs, '-'))
  }

  // Every string has such a description, so SlugIsDashedRuns speaks of every name.
  lemma {:induction false} RunsExist(s: string) returns (gaps: seq<string>, runs: seq<string>)
    ensures HasRuns(s, gaps, runs)
    decreases |s|
  {
    if s == [] {
      gaps, runs := [[]], [];
    } else {
      var g, r := RunsExist(s[1..]);
      assert s == [s[0]] + s[1..];
      if !Alnum(s[0]) {
        gaps, runs := [[s[0]] + g[0]] + g[1..], r;
        assert gaps[1..] == g[1..];
      } else if g[0] == [] && r != [] {
        gaps, runs := g, [[s[0]] + r[0]] + r[1..];
        assert runs[1..] == r[1..];
        assert s == Weave(gaps, runs);
      } else {
        gaps, runs := [[]] + g, [[s[0]]] + r;
        assert gaps[1..] == g && runs[1..] == r;
      }
    }
  }

  lemma {:induction false} TrimLeftDrops(gap: string, rest: string)
    requires All(NotAlnum, gap) && (rest == [] || Alnum(rest[0]))
    ensures TrimLeft(NotAlnum, gap + rest) == rest
  {
    if gap == [] {
      assert gap + rest == rest;
    } else {
      assert (gap + rest)[1..] == gap[1..] + rest;
      AllTail(NotAlnum, gap);
      TrimLeftDrops(gap[1..], rest);
    }
  }

  lemma AllTail(p: char -> bool, s: string)
    requires s != [] && All(p, s)
    ensures All(p, s[1..])
  {
    assert forall i | 0 <= i < |s| - 1 :: s[1..][i] == s[i + 1];
  }

  lemma {:induction false} ReplaceKeepsRun(run: string, rest: string)
    requires All(Alnum, run)
    ensures ReplaceRuns(run + rest) == run + ReplaceRuns(rest)
  {
    if run == [] {
      assert run + rest == rest;
    } else {
      assert (run + rest)[1..] == run[1..] + rest;
      AllTail(Alnum, run);
      ReplaceKeepsRun(run[1..], rest);
      calc {
        ReplaceRuns(run + rest);
        [run[0]] + (run[1..] + ReplaceRuns(rest));
        run + ReplaceRuns(rest);
      }
    }
  }

  function Dash(gap: string): string {
    if gap == [] then [] else ['-']
  }

  lemma ReplaceGap(gap: string, rest: string)
    requires All(NotAlnum, gap) && (rest == [] || Alnum(rest[0]))
    ensures ReplaceRuns(gap + rest) == Dash(gap) + ReplaceRuns(rest)
  {
    if gap == [] {
      assert gap + rest == rest;
    } else {
      TrimLeftDrops(gap, rest);
    }
  }

  // What replacing makes of a woven string: each gap becomes at most one dash.
  function DashWeave(gaps: seq<string>, runs: seq<string>): string
    requires |gaps| == |runs| + 1
  {
    if runs == [] then Dash(gaps[0]) else Dash(gaps[0]) + (runs[0] + DashWeave(gaps[1..], runs[1..]))
  }

  lemma {:induction false} ReplaceWeave(gaps: seq<string>, runs: seq<string>)
    requires Alternate(gaps, runs)
    ensures ReplaceRuns(Weave(gaps, runs)) == DashWeave(gaps, runs)
    decreases |runs|
  {
    if runs == [] {
      assert gaps[0] == gaps[0] + [];
      ReplaceGap(gaps[0], []);
      assert Dash(gaps[0]) + [] == Dash(gaps[0]);
    } else {
      var rest := Weave(gaps[1..], runs[1..]);
      assert gaps[0] + runs[0] + rest == gaps[0] + (runs[0] + rest);
      ReplaceGap(gaps[0], runs[0] + rest);
      ReplaceKeepsRun(runs[0], rest);
      ReplaceWeave(gaps[1..], runs[1..]);
    }
  }

  lemma {:induction false} DashWeaveIsJoin(gaps: seq<string>, runs: seq<string>)
    requires |gaps| == |runs| + 1 && runs != []
    requires forall i | 0 < i < |runs| :: gaps[i] != []
    ensures DashWeave(gaps, runs) == Dash(gaps[0]) + Join(runs, '-') + Dash(gaps[|runs|])
    decreases |runs|
  {
    var first, last := Dash(gaps[0]), Dash(gaps[|runs|]);
    if |runs| == 1 {
      assert DashWeave(gaps[1..], runs[1..]) == last;
      Associate(first, runs[0], [], [], last);
    } else {
      DashWeaveIsJoin(gaps[1..], runs[1..]);
      assert DashWeave(gaps[1..], runs[1..]) == ['-'] + Join(runs[1..], '-') + last;
      Associate(first, runs[0], ['-'], Join(runs[1..], '-'), last);
    }
  }

  lemma Associate(a: string, b: string, c: string, d: string, e: string)
    ensures a + (b + (c + d + e)) == a + (b + c + d) + e
    ensures c + d == [] ==> a + (b + e) == a + b + e
  {}

  lemma {:induction false} JoinEdges(runs: seq<string>)
    requires runs != []
    requires forall i | 0 <= i < |runs| :: runs[i] != [] && All(Alnum, runs[i])
    ensures var j := Join(runs, '-'); j != [] && Alnum(j[0]) && Alnum(j[|j| - 1])
    ensures forall i | 0 <= i < |Join(runs, '-')| :: Alnum(Join(runs, '-')[i]) || Join(runs, '-')[i] == '-'
    ensures forall i | 0 < i < |Join(runs, '-')| :: Join(runs, '-')[i] == '-' ==> Join(runs, '-')[i - 1] != '-'
  {
    if |runs| > 1 {
      JoinEdges(runs[1..]);
      var tail := Join(runs[1..], '-');
      var j := Join(runs, '-');
      assert j == runs[0] + ['-'] + tail;
      assert forall i | |runs[0]| < i < |j| :: j[i] == tail[i - |runs[0]| - 1];
    }
  }

  lemma TrimDashes(left: string, word: string, right: string)
    requires All(IsDash, left) && All(IsDash, right)
    requires word == [] || (Alnum(word[0]) && Alnum(word[|word| - 1]))
    ensures Trim(IsDash, left + word + right) == word
  {
    TrimIsUnique(IsDash, left + word + right, left, word, right);
  }

  lemma SlugOfNoRuns(gaps: seq<string>)
    requires Alternate(gaps, [])
    ensures OrDefault(Trim(IsDash, DashWeave(gaps, []))) == Dashed([])
  {
    assert DashWeave(gaps, []) == Dash(gaps[0]) + [] + [];
    TrimDashes(Dash(gaps[0]), [], []);
  }

  lemma SlugOfSomeRuns(gaps: seq<string>, runs: seq<string>)
    requires Alternate(gaps, runs) && runs != []
    ensures OrDefault(Trim(IsDash, DashWeave(gaps, runs))) == Dashed(runs)
  {
    DashWeaveIsJoin(gaps, runs);
    JoinEdges(runs);
    TrimDashes(Dash(gaps[0]), Join(runs, '-'), Dash(gaps[|runs|]));
    hide Join, DashWeave, TrimLeft, TrimRight;
  }

  lemma SlugOfRuns(gaps: seq<string>, runs: seq<string>)
    requires Alternate(gaps, runs)
    ensures OrDefault(Trim(IsDash, ReplaceRuns(Weave(gaps, runs)))) == Dashed(runs)
  {
    hide Alternate, DashWeave, Weave, Trim, Dashed, OrDefault;
    ReplaceWeave(gaps, runs);
    if runs == [] {
      SlugOfNoRuns(gaps);
    } else {
      SlugOfSomeRuns(gaps, runs);
    }
  }

  // Widening the last gap does not change the runs.
  lemma {:induction false} PadRight(gaps: seq<string>, runs: seq<string>, right: string)
    requires |gaps| == |runs| + 1
    ensures Weave(gaps[|runs| := gaps[|runs|] + right], runs) == Weave(gaps, runs) + right
    decreases |runs|
  {
    var wide := gaps[|runs| := gaps[|runs|] + right];
    if runs != [] {
      PadRight(gaps[1..], runs[1..], right);
      assert wide[1..] == gaps[1..][|runs| - 1 := gaps[|runs|] + right];
    }
  }

  // Nor does widening both outer gaps.
  lemma RunsOfPadded(left: string, right: string, gaps: seq<string>, runs: seq<string>)
    returns (wide: seq<string>)
    requires Alternate(gaps, runs) && All(NotAlnum, left) && All(NotAlnum, right)
    ensures HasRuns(left + Weave(gaps, runs) + right, wide, runs)
  {
    var mid := gaps[|runs| := gaps[|runs|] + right];
    PadRight(gaps, runs, right);
    wide := mid[0 := left + mid[0]];
    assert wide[1..] == mid[1..];
    assert Weave(wide, runs) == left + Weave(mid, runs);
  }

  lemma ToLowerAppends(t: Table, a: string, b: string, c: string)
    ensures ToLower(t, a + b + c) == ToLower(t, a) + ToLower(t, b) + ToLower(t, c)
  {}

  lemma SpacesAreGaps(t: Table, s: string)
    requires Lawful(t) && All(t.space, s)
    ensures All(NotAlnum, ToLower(t, s))
  {}

  lemma LowerOfTrimmed(t: Table, name: string) returns (left: string, right: string)
    requires Lawful(t)
    ensures ToLower(t, name) == left + ToLower(t, TrimSpace(t, name)) + right
    ensures All(NotAlnum, left) && All(NotAlnum, right)
  {
    var l, r := TrimSplits(t.space, name);
    ToLowerAppends(t, l, TrimSpace(t, name), r);
    SpacesAreGaps(t, l);
    SpacesAreGaps(t, r);
    left, right := ToLower(t, l), ToLower(t, r);
  }

  // The characterisation: the slug is the maximal [a-z0-9] runs of the lower-cased
  // name joined by single dashes, or "workspace". The name is not trimmed first,
  // so the source's TrimSpace is redundant here.
  lemma SlugIsDashedRuns(t: Table, name: string, gaps: seq<string>, runs: seq<string>)
    requires Lawful(t) && HasRuns(ToLower(t, name), gaps, runs)
    ensures Slugify(t, name) == Dashed(runs) == if runs == [] then "workspace" else Join(runs, '-')
  {
    if runs != [] { JoinEdges(runs); }
    var left, right := LowerOfTrimmed(t, name);
    var g, r := RunsExist(ToLower(t, TrimSpace(t, name)));
    var wide := RunsOfPadded(left, right, g, r);
    SlugOfRuns(g, r);
    SlugOfRuns(wide, r);
    SlugOfRuns(gaps, runs);
  }

  ghost predicate SlugAlphabet(s: string) {
    forall i | 0 <= i < |s| :: 'a' <= s[i] <= 'z' || '0' <= s[i] <= '9' || s[i] == '-'
  }

  ghost predicate DashesApart(s: string) {
    forall i | 0 < i < |s| :: s[i] == '-' ==> s[i - 1] != '-'
  }

  ghost predicate WellFormed(s: string) {
    && s != "" && s[0] != '-' && s[|s| - 1] != '-'
    && SlugAlphabet(s) && DashesApart(s)
  }

  lemma DashedWords(runs: seq<string>) returns (words: seq<string>)
    requires forall i | 0 <= i < |runs| :: runs[i] != [] && All(Alnum, runs[i])
    ensures words != [] && Dashed(runs) == Join(words, '-')
    ensures forall i | 0 <= i < |words| :: words[i] != [] && All(Alnum, words[i])
  {
    if runs == [] {
      words := ["workspace"];
    } else {
      words := runs;
      JoinEdges(runs);
    }
  }

  lemma SlugWords(t: Table, name: string) returns (words: seq<string>)
    requires Lawful(t)
    ensures words != [] && Slugify(t, name) == Join(words, '-')
    ensures forall i | 0 <= i < |words| :: words[i] != [] && All(Alnum, words[i])
  {
    var gaps, runs := RunsExist(ToLower(t, name));
    SlugIsDashedRuns(t, name, gaps, runs);
    words := DashedWords(runs);
  }

  // A slug is non-empty, over [a-z0-9-], without a dash at an edge or two in a row.
  lemma SlugIsWellFormed(t: Table, name: string)
    requires Lawful(t)
    ensures WellFormed(Slugify(t, name))
  {
    var words := SlugWords(t, name);
    JoinEdges(words);
  }

  lemma ApartInTail(s: string)
    requires s != [] && DashesApart(s)
    ensures DashesApart(s[1..]) && (|s| > 1 && s[0] == '-' ==> s[1] != '-')
  {
    if |s| > 1 { assert s[1] == '-' ==> s[0] != '-'; }
    forall i | 0 < i < |s[1..]| && s[1..][i] == '-' ensures s[1..][i - 1] != '-' {
      assert s[i + 1] == '-';
    }
  }

  // Text whose only gaps are single dashes, without one at the end, stays as it is.
  lemma {:induction false} NothingReplaced(s: string)
    requires SlugAlphabet(s) && DashesApart(s) && (s != [] ==> s[|s| - 1] != '-')
    ensures ReplaceRuns(s) == s
    decreases |s|
  {
    if s != [] {
      ApartInTail(s);
      hide DashesApart, ReplaceRuns, TrimLeft;
      var rest := s[1..];
      assert s == [s[0]] + rest;
      assert SlugAlphabet(rest) && (rest != [] ==> rest[|rest| - 1] == s[|s| - 1]);
      NothingReplaced(rest);
      ReplaceOne(s);
    }
  }

  lemma ReplaceOne(s: string)
    requires s != [] && (Alnum(s[0]) || (s[0] == '-' && |s| > 1 && Alnum(s[1])))
    ensures ReplaceRuns(s) == [s[0]] + ReplaceRuns(s[1..])
  {
    if !Alnum(s[0]) { assert TrimLeft(NotAlnum, s) == TrimLeft(NotAlnum, s[1..]) == s[1..]; }
  }

  lemma NothingTrimmed(p: char -> bool, s: string)
    requires s != [] && !p(s[0]) && !p(s[|s| - 1])
    ensures Trim(p, s) == s
  {
    assert s == [] + s + [];
    TrimIsUnique(p, s, [], s, []);
  }

  lemma LowerIsIdentity(t: Table, s: string)
    requires Lawful(t) && WellFormed(s)
    ensures ToLower(t, s) == s && !t.space(s[0]) && !t.space(s[|s| - 1])
  {
    hide DashesApart;
    assert t.lower(s[0]) == s[0] && t.lower(s[|s| - 1]) == s[|s| - 1];
  }

  // The well-formed texts are exactly the ones that are their own slug.
  lemma SlugIffFixed(t: Table, s: string)
    requires Lawful(t)
    ensures WellFormed(s) <==> Slugify(t, s) == s
  {
    SlugIsWellFormed(t, s);
    if WellFormed(s) {
      hide DashesApart, ReplaceRuns, Trim, Lawful, ToLower, SlugAlphabet;
      LowerIsIdentity(t, s);
      NothingTrimmed(t.space, s);
      NothingReplaced(s);
      NothingTrimmed(IsDash, s);
    }
  }

  lemma SlugifyIsIdempotent(t: Table, name: string)
    requires Lawful(t)
    ensures Slugify(t, Slugify(t, name)) == Slugify(t, name)
  {
    SlugIsWellFormed(t, name);
    SlugIffFixed(t, Slugify(t, name));
  }
}
