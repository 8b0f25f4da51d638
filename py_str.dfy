/**
 * The parts of Python's `str` type that the reply pipeline relies on, on
 * strings taken as sequences of code points: `isspace`, `lower`, the `in`
 * operator, `strip`, `replace`, `join` and `rsplit(sep, 1)[0]`.
 */
module PyStr {

  /** Python's `Optional`: `None` or a value. */
  datatype Option<T> = None | Some(value: T)

  /**
   * Python's `str.isspace()` on one character; `\s` in a `str` regular
   * expression matches exactly these characters too.
   */
  predicate IsSpace(c: char)
  {
    || ('\t' <= c <= '\r')
    || ('\U{1C}' <= c <= '\U{1F}')
    || c == ' '
    || c == '\U{85}'
    || c == '\U{A0}'
    || c == '\U{1680}'
    || ('\U{2000}' <= c <= '\U{200A}')
    || c == '\U{2028}'
    || c == '\U{2029}'
    || c == '\U{202F}'
    || c == '\U{205F}'
    || c == '\U{3000}'
  }

  ghost predicate AllSpace(s: string)
  {
    forall k :: 0 <= k < |s| ==> IsSpace(s[k])
  }

  predicate IsUpperAscii(c: char)
  {
    'A' <= c <= 'Z'
  }

  /**
   * Python's `str.lower()` on one character. ASCII capitals become small
   * letters; U+0130 (capital I with dot above) becomes "i" followed by U+0307,
   * and U+212A (Kelvin sign) becomes "k": these two are the only characters
   * outside ASCII whose lower case holds an ASCII letter. Every other
   * character is kept as it is.
   */
  function LowerChar(c: char): (r: string)
    ensures |r| >= 1
    ensures forall k :: 0 <= k < |r| ==> !IsUpperAscii(r[k])
  {
    if IsUpperAscii(c) then [(c as int + 32) as char]
    else if c == '\U{0130}' then ['i', '\U{0307}']
    else if c == '\U{212A}' then ['k']
    else [c]
  }

  /** Python's `str.lower()`. */
  function Lower(s: string): (r: string)
    ensures |r| >= |s|
    ensures forall k :: 0 <= k < |r| ==> !IsUpperAscii(r[k])
  {
    if s == [] then [] else LowerChar(s[0]) + Lower(s[1..])
  }

  lemma {:induction false} LowerAppend(a: string, b: string)
    ensures Lower(a + b) == Lower(a) + Lower(b)
  {
    if a == [] {
      assert a + b == b;
    } else {
      assert (a + b)[0] == a[0] && (a + b)[1..] == a[1..] + b;
      LowerAppend(a[1..], b);
    }
  }

  /** `needle` occurs in `hay` starting at index `i`. */
  ghost predicate OccursAt(hay: string, needle: string, i: int)
  {
    0 <= i && i + |needle| <= |hay| && hay[i..i + |needle|] == needle
  }

  lemma OccursAtTail(hay: string, needle: string)
    requires hay != []
    ensures forall j :: 1 <= j ==> (OccursAt(hay, needle, j) <==> OccursAt(hay[1..], needle, j - 1))
  {
    forall j | 1 <= j ensures OccursAt(hay, needle, j) <==> OccursAt(hay[1..], needle, j - 1) {
      if j + |needle| <= |hay| {
        assert hay[1..][j - 1..j - 1 + |needle|] == hay[j..j + |needle|];
      }
    }
  }

  /** Python's `needle in hay` for two strings: a substring test. */
  function Contains(hay: string, needle: string): (r: bool)
    ensures r <==> exists i :: OccursAt(hay, needle, i)
    decreases |hay|
  {
    if |hay| < |needle| then false
    else if hay[..|needle|] == needle then assert OccursAt(hay, needle, 0); true
    else
      OccursAtTail(hay, needle);
      assert !OccursAt(hay, needle, 0);
      var r := Contains(hay[1..], needle);
      assert r ==> exists i :: OccursAt(hay, needle, i) by {
        if r {
          var i :| OccursAt(hay[1..], needle, i);
          assert OccursAt(hay, needle, i + 1);
        }
      }
      r
  }

  /** An occurrence of `needle` in `t` is still one when `t` is surrounded by more text. */
  lemma OccursInContext(a: string, t: string, b: string, needle: string, i: int)
    requires OccursAt(t, needle, i)
    ensures OccursAt(a + t + b, needle, |a| + i)
  {
    assert (a + t + b)[|a| + i..|a| + i + |needle|] == t[i..i + |needle|];
  }

  /** Python's `str.lstrip()` with no argument. */
  function LStrip(s: string): (r: string)
    ensures |r| <= |s| && r == s[|s| - |r|..]
    ensures AllSpace(s[..|s| - |r|])
    ensures r == [] || !IsSpace(r[0])
  {
    if s != [] && IsSpace(s[0]) then LStrip(s[1..]) else s
  }

  /** Python's `str.rstrip()` with no argument. */
  function RStrip(s: string): (r: string)
    ensures |r| <= |s| && r == s[..|r|]
    ensures AllSpace(s[|r|..])
    ensures r == [] || !IsSpace(r[|r| - 1])
  {
    if s != [] && IsSpace(s[|s| - 1]) then RStrip(s[..|s| - 1]) else s
  }

  /** Neither end of `s` is whitespace. */
  predicate Trimmed(s: string)
  {
    s == [] || (!IsSpace(s[0]) && !IsSpace(s[|s| - 1]))
  }

  /**
   * Python's `str.strip()` with no argument: the result is the slice of `s`
   * left once the whitespace at both ends is cut off, and no more.
   */
  function Strip(s: string): (r: string)
    ensures Trimmed(r)
    ensures exists i :: 0 <= i <= |s| - |r| && r == s[i..i + |r|]
                        && AllSpace(s[..i]) && AllSpace(s[i + |r|..])
  {
    var l := LStrip(s);
    var r := RStrip(l);
    StripSlice(s, l, r);
    r
  }

  /** Cutting a whitespace prefix, then a whitespace suffix, off `s` leaves a slice of `s`. */
  lemma StripSlice(s: string, l: string, r: string)
    requires |l| <= |s| && l == s[|s| - |l|..] && AllSpace(s[..|s| - |l|])
    requires |r| <= |l| && r == l[..|r|] && AllSpace(l[|r|..])
    requires (l == [] || !IsSpace(l[0])) && (r == [] || !IsSpace(r[|r| - 1]))
    ensures Trimmed(r)
    ensures exists i :: 0 <= i <= |s| - |r| && r == s[i..i + |r|]
                        && AllSpace(s[..i]) && AllSpace(s[i + |r|..])
  {
    var i := |s| - |l|;
    SuffixSlices(s, i, |r|);
    assert r == s[i..i + |r|] && AllSpace(s[..i]) && AllSpace(s[i + |r|..]);
  }

  lemma SuffixSlices(s: string, i: nat, n: nat)
    requires i + n <= |s|
    ensures s[i..][..n] == s[i..i + n] && s[i..][n..] == s[i + n..]
  {
  }

  lemma StripTrimmed(s: string)
    requires Trimmed(s)
    ensures Strip(s) == s
  {
  }

  /** The last index of `c` in `s`, if any (Python's `str.rfind` for one character). */
  function LastIndexOf(s: string, c: char): (k: Option<nat>)
    ensures k.Some? ==> k.value < |s| && s[k.value] == c && c !in s[k.value + 1..]
    ensures k.None? ==> c !in s
  {
    if s == [] then None
    else if s[|s| - 1] == c then Some(|s| - 1)
    else
      var k := LastIndexOf(s[..|s| - 1], c);
      assert s == s[..|s| - 1] + [s[|s| - 1]];
      k
  }

  /**
   * Python's `s.rsplit(sep, 1)[0]` for a one-character separator: the part of
   * `s` before the last `sep`, or all of `s` when `sep` does not occur.
   */
  function RSplitHead(s: string, sep: char): (r: string)
    ensures r <= s
    ensures sep in s ==> |r| < |s| && s[|r|] == sep && sep !in s[|r| + 1..]
    ensures sep !in s ==> r == s
  {
    match LastIndexOf(s, sep)
    case Some(k) => s[..k]
    case None => s
  }

  /** Python's `sep.join(parts)`. */
  function Join(sep: string, parts: seq<string>): (r: string)
    ensures parts == [] ==> r == []
    ensures parts != [] ==> parts[0] <= r
    ensures |parts| > 1 ==> |r| >= |parts[0]| + |sep| + |parts[|parts| - 1]|
  {
    if parts == [] then []
    else if |parts| == 1 then parts[0]
    else parts[0] + sep + Join(sep, parts[1..])
  }

  /**
   * Appending one more part to a non-empty list adds the separator and that
   * part at the end of the join: `sep.join(parts + [p])` is
   * `sep.join(parts) + sep + p`.
   */
  lemma {:induction false} JoinAppend(sep: string, parts: seq<string>, p: string)
    requires parts != []
    ensures Join(sep, parts + [p]) == Join(sep, parts) + sep + p
  {
    var l := parts + [p];
    if |parts| == 1 {
      assert l[1..] == [p];
    } else {
      assert l[1..] == parts[1..] + [p];
      JoinAppend(sep, parts[1..], p);
      assert Join(sep, l) == parts[0] + sep + (Join(sep, parts[1..]) + sep + p);
    }
  }

  /**
   * Python's `s.replace(pat, rep)`: every occurrence of `pat`, found left to
   * right without overlap, is replaced by `rep`.
   */
  function Replace(s: string, pat: string, rep: string): (r: string)
    requires pat != []
    ensures !Contains(s, pat) ==> r == s
    decreases |s|
  {
    if |s| < |pat| then s
    else if s[..|pat|] == pat then rep + Replace(s[|pat|..], pat, rep)
    else
      OccursAtTail(s, pat);
      [s[0]] + Replace(s[1..], pat, rep)
  }

  /** A string without the first character of a non-empty pattern does not contain the pattern. */
  lemma MissingFirstNotContained(s: string, pat: string)
    requires pat != [] && pat[0] !in s
    ensures !Contains(s, pat)
  {
  }

  /** Splitting off the first character of the first of three parts. */
  lemma ConsSplit(h: string, a: string, b: string)
    requires h != []
    ensures h + a + b == [h[0]] + (h[1..] + a + b)
  {
    assert h == [h[0]] + h[1..];
  }

  /** `replace` on a string that starts with the pattern replaces that occurrence first. */
  lemma ReplaceAtStart(pat: string, t: string, rep: string)
    requires pat != []
    ensures Replace(pat + t, pat, rep) == rep + Replace(t, pat, rep)
  {
    var s := pat + t;
    assert s[..|pat|] == pat && s[|pat|..] == t;
  }

  /** `replace` keeps a first character that cannot start the pattern. */
  lemma ReplaceSkipsFirst(c: char, rest: string, pat: string, rep: string)
    requires pat != [] && c != pat[0]
    ensures Replace([c] + rest, pat, rep) == [c] + Replace(rest, pat, rep)
  {
    var s := [c] + rest;
    assert s[0] == c && s[1..] == rest;
    if |s| >= |pat| {
      assert s[..|pat|] != pat by { assert s[..|pat|][0] == c; }
    }
  }

  /**
   * When `pat` occurs once, after a prefix that does not even hold its first
   * character, `replace` splices `rep` in its place and leaves the rest.
   */
  lemma {:induction false} ReplaceSplice(h: string, pat: string, t: string, rep: string)
    requires pat != [] && pat[0] !in h && !Contains(t, pat)
    ensures Replace(h + pat + t, pat, rep) == h + rep + t
  {
    if h == [] {
      assert h + pat + t == pat + t && h + rep + t == rep + t;
      ReplaceAtStart(pat, t, rep);
    } else {
      ConsSplit(h, pat, t);
      ReplaceSkipsFirst(h[0], h[1..] + pat + t, pat, rep);
      ReplaceSplice(h[1..], pat, t, rep);
      ConsSplit(h, rep, t);
    }
  }
}
