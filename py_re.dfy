/**
 * The two `re.sub` calls of the reply clean-up, written out as the matcher
 * runs them: it tries each start position from left to right, takes the
 * longest match the greedy pattern allows there, replaces it and resumes
 * after it.
 *
 *   SubSpaceNewline  is  re.sub(r"\s+\n", "\n", s)
 *   CollapseNewlines is  re.sub(r"\n{3,}", "\n\n", s)
 */
module PyRe {
  import opened PyStr

  /** The length of the whitespace run that `s` starts with. */
  function SpaceRun(s: string): (n: nat)
    ensures n <= |s| && AllSpace(s[..n])
    ensures n < |s| ==> !IsSpace(s[n])
  {
    if s != [] && IsSpace(s[0]) then 1 + SpaceRun(s[1..]) else 0
  }

  /** The largest `k` with `1 <= k < hi` and `s[k] == '\n'`, if there is one. */
  function LastNewlineBelow(s: string, hi: nat): (m: Option<nat>)
    requires hi <= |s|
    ensures m.Some? ==> 1 <= m.value < hi && s[m.value] == '\n'
    ensures m.Some? ==> forall k :: m.value < k < hi ==> s[k] != '\n'
    ensures m.None? ==> forall k :: 1 <= k < hi ==> s[k] != '\n'
    decreases hi
  {
    if hi <= 1 then None
    else if s[hi - 1] == '\n' then Some(hi - 1)
    else LastNewlineBelow(s, hi - 1)
  }

  /**
   * Where a match of `\s+\n` that starts at index 0 of `s` ends: the index of
   * its newline. `\s+` needs at least one whitespace character and the whole
   * match is whitespace, so the newline lies in the leading whitespace run
   * at an index of at least 1; greed takes the last such newline.
   */
  function SpaceNewlineMatch(s: string): (m: Option<nat>)
    ensures m.Some? ==> 1 <= m.value < SpaceRun(s) && s[m.value] == '\n'
    ensures m.Some? ==> forall k :: m.value < k < SpaceRun(s) ==> s[k] != '\n'
    ensures m.None? ==> forall k :: 1 <= k < SpaceRun(s) ==> s[k] != '\n'
  {
    LastNewlineBelow(s, SpaceRun(s))
  }

  function SubSpaceNewline(s: string): string
    decreases |s|
  {
    if s == [] then []
    else match SpaceNewlineMatch(s)
      case Some(p) => "\n" + SubSpaceNewline(s[p + 1..])
      case None => [s[0]] + SubSpaceNewline(s[1..])
  }

  /** The length of the newline run that `s` starts with. */
  function NewlineRun(s: string): (n: nat)
    ensures n <= |s|
    ensures forall k :: 0 <= k < n ==> s[k] == '\n'
    ensures n < |s| ==> s[n] != '\n'
  {
    if s != [] && s[0] == '\n' then 1 + NewlineRun(s[1..]) else 0
  }

  function CollapseNewlines(s: string): string
    decreases |s|
  {
    if s == [] then []
    else
      var n := NewlineRun(s);
      if n >= 3 then "\n\n" + CollapseNewlines(s[n..])
      else [s[0]] + CollapseNewlines(s[1..])
  }

  /** No whitespace character stands right before a newline. */
  ghost predicate NoSpaceBeforeNewline(s: string)
  {
    forall k :: 0 < k < |s| && s[k] == '\n' ==> !IsSpace(s[k - 1])
  }

  /** No three newlines in a row. */
  ghost predicate NoTripleNewline(s: string)
  {
    forall k :: 0 <= k && k + 2 < |s| && s[k] == '\n' ==> !(s[k + 1] == '\n' && s[k + 2] == '\n')
  }

  /** The characters of `s` that are not whitespace, in order. */
  function Visible(s: string): (r: string)
    ensures |r| <= |s|
  {
    if s == [] then [] else (if IsSpace(s[0]) then [] else [s[0]]) + Visible(s[1..])
  }

  lemma {:induction false} VisibleAppend(a: string, b: string)
    ensures Visible(a + b) == Visible(a) + Visible(b)
  {
    if a == [] {
      assert a + b == b;
    } else {
      assert (a + b)[0] == a[0] && (a + b)[1..] == a[1..] + b;
      VisibleAppend(a[1..], b);
    }
  }

  lemma {:induction false} VisibleOfSpace(s: string)
    requires AllSpace(s)
    ensures Visible(s) == []
  {
    if s != [] {
      VisibleOfSpace(s[1..]);
    }
  }

  /** A whitespace prefix of known length shifts the whitespace run by that length. */
  lemma {:induction false} SpaceRunAfter(s: string, j: nat)
    requires j <= |s| && AllSpace(s[..j])
    ensures SpaceRun(s) == j + SpaceRun(s[j..])
  {
    if j > 0 {
      assert IsSpace(s[0]);
      assert s[1..][..j - 1] == s[1..j];
      assert s[1..][j - 1..] == s[j..];
      SpaceRunAfter(s[1..], j - 1);
    }
  }

  /** The first character of the substitution's output is a newline only when the input starts with a whitespace run holding one. */
  lemma {:induction false} SubSpaceNewlineHead(s: string)
    requires SubSpaceNewline(s) != [] && SubSpaceNewline(s)[0] == '\n'
    ensures exists k :: 0 <= k < SpaceRun(s) && s[k] == '\n'
  {
    match SpaceNewlineMatch(s)
    case Some(p) =>
    case None =>
      assert s[0] == '\n' && SpaceRun(s) >= 1;
  }

  /** A match ends on a newline that follows a whitespace character. */
  lemma MatchEndsRun(s: string)
    requires SpaceNewlineMatch(s).Some?
    ensures var p := SpaceNewlineMatch(s).value;
            1 <= p < |s| && s[p] == '\n' && IsSpace(s[p - 1])
  {
    var p := SpaceNewlineMatch(s).value;
    assert s[..SpaceRun(s)][p - 1] == s[p - 1];
  }

  /** After a match, the rest of the input does not start a whitespace run holding a newline. */
  lemma AfterMatchNoNewline(s: string, p: nat)
    requires SpaceNewlineMatch(s) == Some(p)
    ensures forall k :: p + 1 <= k < p + 1 + SpaceRun(s[p + 1..]) ==> s[k] != '\n'
  {
    SpaceRunAfter(s, p + 1);
  }

  /** Without a match, the input minus its first character does not start a whitespace run holding a newline. */
  lemma NoMatchNoNewline(s: string)
    requires s != [] && IsSpace(s[0]) && SpaceNewlineMatch(s).None?
    ensures forall k :: 1 <= k < 1 + SpaceRun(s[1..]) ==> s[k] != '\n'
  {
    SpaceRunAfter(s, 1);
  }

  /**
   * After `re.sub(r"\s+\n", "\n", s)` no whitespace stands before a newline,
   * so there are not even two newlines in a row.
   */
  lemma {:induction false} SubSpaceNewlineTidy(s: string)
    ensures NoSpaceBeforeNewline(SubSpaceNewline(s))
    decreases |s|
  {
    if s != [] {
      var r := SubSpaceNewline(s);
      match SpaceNewlineMatch(s)
      case Some(p) =>
        var t := s[p + 1..];
        var rest := SubSpaceNewline(t);
        SubSpaceNewlineTidy(t);
        assert r == "\n" + rest;
        if rest != [] && rest[0] == '\n' {
          SubSpaceNewlineHead(t);
          var k :| 0 <= k < SpaceRun(t) && t[k] == '\n';
          AfterMatchNoNewline(s, p);
          assert false;
        }
        forall k | 0 < k < |r| && r[k] == '\n' ensures !IsSpace(r[k - 1]) {
          if k >= 2 {
            assert r[k] == rest[k - 1] && r[k - 1] == rest[k - 2];
          }
        }
      case None =>
        var t := s[1..];
        var rest := SubSpaceNewline(t);
        SubSpaceNewlineTidy(t);
        assert r == [s[0]] + rest;
        if IsSpace(s[0]) && rest != [] && rest[0] == '\n' {
          SubSpaceNewlineHead(t);
          assert false;
        }
        forall k | 0 < k < |r| && r[k] == '\n' ensures !IsSpace(r[k - 1]) {
          if k >= 2 {
            assert r[k] == rest[k - 1] && r[k - 1] == rest[k - 2];
          }
        }
    }
  }

  /** A match spans only whitespace, so the text after it has the same visible characters. */
  lemma VisibleAfterMatch(s: string, p: nat)
    requires SpaceNewlineMatch(s) == Some(p)
    ensures Visible(s) == Visible(s[p + 1..])
  {
    assert s == s[..p + 1] + s[p + 1..];
    VisibleAppend(s[..p + 1], s[p + 1..]);
    assert s[..p + 1] == s[..SpaceRun(s)][..p + 1];
    VisibleOfSpace(s[..p + 1]);
  }

  lemma VisibleCons(c: char, t: string)
    ensures Visible([c] + t) == (if IsSpace(c) then [] else [c]) + Visible(t)
  {
    assert ([c] + t)[0] == c && ([c] + t)[1..] == t;
  }

  /** `re.sub(r"\s+\n", "\n", s)` removes whitespace and nothing else. */
  lemma {:induction false} SubSpaceNewlineVisible(s: string)
    ensures Visible(SubSpaceNewline(s)) == Visible(s)
    decreases |s|
  {
    if s != [] {
      var m := SpaceNewlineMatch(s);
      if m.Some? {
        var t := s[m.value + 1..];
        SubSpaceNewlineVisible(t);
        VisibleAfterMatch(s, m.value);
        VisibleCons('\n', SubSpaceNewline(t));
      } else {
        var t := s[1..];
        SubSpaceNewlineVisible(t);
        VisibleCons(s[0], SubSpaceNewline(t));
      }
    }
  }

  /** Where no whitespace stands before a newline, the substitution finds nothing to replace. */
  lemma {:induction false} SubSpaceNewlineFixed(s: string)
    requires NoSpaceBeforeNewline(s)
    ensures SubSpaceNewline(s) == s
    decreases |s|
  {
    if s != [] {
      match SpaceNewlineMatch(s)
      case Some(p) =>
        MatchEndsRun(s);
        assert false;
      case None =>
        assert NoSpaceBeforeNewline(s[1..]) by {
          forall k | 0 < k < |s| - 1 && s[1..][k] == '\n' ensures !IsSpace(s[1..][k - 1]) {
            assert s[k + 1] == '\n';
          }
        }
        SubSpaceNewlineFixed(s[1..]);
    }
  }

  /** The number of newlines `re.sub(r"\n{3,}", "\n\n", s)` begins with. */
  lemma {:induction false} CollapseNewlinesHead(s: string)
    ensures NewlineRun(CollapseNewlines(s)) == if NewlineRun(s) >= 3 then 2 else NewlineRun(s)
    decreases |s|
  {
    if s != [] {
      var n := NewlineRun(s);
      if n >= 3 {
        CollapseNewlinesHead(s[n..]);
        var rest := CollapseNewlines(s[n..]);
        assert NewlineRun(rest) == 0;
        assert CollapseNewlines(s) == "\n\n" + rest;
        assert NewlineRun(CollapseNewlines(s)) == 2 by {
          var c := CollapseNewlines(s);
          assert c[1..] == "\n" + rest && c[1..][1..] == rest;
        }
      } else {
        CollapseNewlinesHead(s[1..]);
        if s[0] == '\n' {
          assert NewlineRun(s[1..]) == n - 1;
        }
        assert CollapseNewlines(s)[1..] == CollapseNewlines(s[1..]);
      }
    }
  }

  /** After `re.sub(r"\n{3,}", "\n\n", s)` there are no three newlines in a row. */
  lemma {:induction false} CollapseNewlinesSpec(s: string)
    ensures NoTripleNewline(CollapseNewlines(s))
    decreases |s|
  {
    if s != [] {
      var n := NewlineRun(s);
      var c := CollapseNewlines(s);
      CollapseNewlinesHead(s);
      assert NewlineRun(c) <= 2;
      assert !(|c| >= 3 && c[0] == '\n' && c[1] == '\n' && c[2] == '\n');
      var tail := if n >= 3 then s[n..] else s[1..];
      CollapseNewlinesSpec(tail);
      if n >= 3 {
        var rest := CollapseNewlines(tail);
        assert c == "\n\n" + rest;
        forall k | 0 <= k && k + 2 < |c| && c[k] == '\n'
          ensures !(c[k + 1] == '\n' && c[k + 2] == '\n')
        {
          if k >= 2 {
            assert c[k] == rest[k - 2] && c[k + 1] == rest[k - 1] && c[k + 2] == rest[k];
          } else if k == 1 {
            assert c[k + 1] == rest[0];
            CollapseNewlinesHead(tail);
            assert rest != [] ==> rest[0] != '\n';
          }
        }
      } else {
        var rest := CollapseNewlines(tail);
        assert c == [s[0]] + rest;
        forall k | 0 <= k && k + 2 < |c| && c[k] == '\n'
          ensures !(c[k + 1] == '\n' && c[k + 2] == '\n')
        {
          if k >= 1 {
            assert c[k] == rest[k - 1] && c[k + 1] == rest[k] && c[k + 2] == rest[k + 1];
          }
        }
      }
    }
  }

  /** Where no three newlines stand in a row, the collapse finds nothing to replace. */
  lemma {:induction false} CollapseNewlinesFixed(s: string)
    requires NoTripleNewline(s)
    ensures CollapseNewlines(s) == s
    decreases |s|
  {
    if s != [] {
      var n := NewlineRun(s);
      if n >= 3 {
        assert s[0] == '\n' && s[1] == '\n' && s[2] == '\n' by {
          assert forall k :: 0 <= k < n ==> s[k] == '\n';
        }
        assert false;
      }
      assert NoTripleNewline(s[1..]) by {
        forall k | 0 <= k && k + 2 < |s| - 1 && s[1..][k] == '\n'
          ensures !(s[1..][k + 1] == '\n' && s[1..][k + 2] == '\n')
        {
          assert s[k + 1] == '\n';
        }
      }
      CollapseNewlinesFixed(s[1..]);
    }
  }

  /** No whitespace before a newline rules out two, and so three, newlines in a row. */
  lemma NoSpaceBeforeNewlineNoTriple(s: string)
    requires NoSpaceBeforeNewline(s)
    ensures NoTripleNewline(s)
  {
    forall k | 0 <= k && k + 2 < |s| && s[k] == '\n'
      ensures !(s[k + 1] == '\n' && s[k + 2] == '\n')
    {
      assert IsSpace(s[k]);
    }
  }
}
