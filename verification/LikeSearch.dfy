/** Search terms as SQL LIKE patterns with the escape character '/'. */
module LikeSearch {
  /** How the database compares two characters: equal after folding, which is the identity in a binary collation. */
  type Fold = char -> char

  /** `s LIKE p ESCAPE '/'`. */
  predicate Like(p: string, s: string, fold: Fold)
    decreases |p| + |s|
  {
    if p == [] then s == []
    else if p[0] == '%' then Like(p[1..], s, fold) || (s != [] && Like(p, s[1..], fold))
    else if p[0] == '_' then s != [] && Like(p[1..], s[1..], fold)
    else if p[0] == '/' then |p| >= 2 && s != [] && fold(p[1]) == fold(s[0]) && Like(p[2..], s[1..], fold)
    else s != [] && fold(p[0]) == fold(s[0]) && Like(p[1..], s[1..], fold)
  }

  predicate IsWildcard(c: char) {
    c == '/' || c == '%' || c == '_'
  }

  function Escape(v: string): string {
    if v == [] then [] else (if IsWildcard(v[0]) then ['/', v[0]] else [v[0]]) + Escape(v[1..])
  }

  function LikeContains(v: string): string {
    "%" + Escape(v) + "%"
  }

  predicate Same(v: string, s: string, fold: Fold) {
    |v| == |s| && forall i | 0 <= i < |v| :: fold(v[i]) == fold(s[i])
  }

  predicate OccursAt(v: string, s: string, i: nat, fold: Fold) {
    i + |v| <= |s| && Same(v, s[i..i + |v|], fold)
  }

  lemma {:induction false} PercentMatchesAnything(s: string, fold: Fold)
    ensures Like("%", s, fold)
  {
    if s == [] { assert "%"[1..] == []; } else { PercentMatchesAnything(s[1..], fold); }
  }

  /** One escaped character matches that character. */
  lemma EscapedCharMatches(c: char, rest: string, s: string, fold: Fold)
    ensures Like((if IsWildcard(c) then ['/', c] else [c]) + rest, s, fold)
      <==> s != [] && fold(c) == fold(s[0]) && Like(rest, s[1..], fold)
  {
    if IsWildcard(c) { assert (['/', c] + rest)[2..] == rest; } else { assert ([c] + rest)[1..] == rest; }
  }

  /** An escaped term matches itself and nothing else, whatever follows in the pattern. */
  lemma {:induction false} EscapedMatchesLiterally(v: string, rest: string, s: string, fold: Fold)
    ensures Like(Escape(v) + rest, s, fold) <==> OccursAt(v, s, 0, fold) && Like(rest, s[|v|..], fold)
  {
    if v == [] {
      assert Escape(v) + rest == rest && s[0..] == s;
    } else {
      var head := if IsWildcard(v[0]) then ['/', v[0]] else [v[0]];
      assert Escape(v) + rest == head + (Escape(v[1..]) + rest);
      EscapedCharMatches(v[0], Escape(v[1..]) + rest, s, fold);
      if s != [] {
        EscapedMatchesLiterally(v[1..], rest, s[1..], fold);
        OccursAtHead(v, s, fold);
        assert |v| <= |s| ==> s[1..][|v| - 1..] == s[|v|..];
      }
    }
  }

  lemma OccursAtHead(v: string, s: string, fold: Fold)
    requires v != [] && s != []
    ensures OccursAt(v, s, 0, fold) <==> fold(v[0]) == fold(s[0]) && OccursAt(v[1..], s[1..], 0, fold)
  {
    if |v| <= |s| {
      assert s[1..][..|v| - 1] == s[1..|v|];
      if OccursAt(v[1..], s[1..], 0, fold) && fold(v[0]) == fold(s[0]) {
        forall i | 0 <= i < |v| ensures fold(v[i]) == fold(s[..|v|][i]) {
          if i > 0 { assert fold(v[1..][i - 1]) == fold(s[1..][..|v| - 1][i - 1]); }
        }
      }
      if OccursAt(v, s, 0, fold) {
        forall i | 0 <= i < |v| - 1 ensures fold(v[1..][i]) == fold(s[1..][..|v| - 1][i]) {
          assert fold(v[i + 1]) == fold(s[0..|v|][i + 1]);
        }
      }
    }
  }

  /** A leading '%' tries every suffix. */
  lemma {:induction false} PercentTriesEverySuffix(p: string, s: string, fold: Fold)
    ensures Like("%" + p, s, fold) <==> exists i: nat | i <= |s| :: Like(p, s[i..], fold)
    decreases |s|
  {
    assert ("%" + p)[1..] == p && s[0..] == s;
    if s != [] {
      PercentTriesEverySuffix(p, s[1..], fold);
      if exists i: nat | i <= |s| - 1 :: Like(p, s[1..][i..], fold) {
        var i: nat :| i <= |s| - 1 && Like(p, s[1..][i..], fold);
        assert s[1..][i..] == s[i + 1..];
      }
      if exists i: nat | 0 < i <= |s| :: Like(p, s[i..], fold) {
        var i: nat :| 0 < i <= |s| && Like(p, s[i..], fold);
        assert s[1..][i - 1..] == s[i..];
      }
    }
  }

  /** The pattern built from a search term matches exactly the texts that contain the term. */
  lemma LikeContainsFindsSubstrings(v: string, s: string, fold: Fold)
    ensures Like(LikeContains(v), s, fold) <==> exists i: nat :: OccursAt(v, s, i, fold)
  {
    var p := Escape(v) + "%";
    assert LikeContains(v) == "%" + p;
    PercentTriesEverySuffix(p, s, fold);
    forall i: nat | i <= |s| ensures Like(p, s[i..], fold) <==> OccursAt(v, s, i, fold) {
      EscapedMatchesLiterally(v, "%", s[i..], fold);
      if i + |v| <= |s| {
        assert s[i..][..|v|] == s[i..i + |v|];
        PercentMatchesAnything(s[i..][|v|..], fold);
      }
    }
  }
}
