/** String operations the UI handlers rely on, stated over `seq<char>`:
    prefix and substring tests (`startsWith`, `includes`), literal `replaceAll`,
    ASCII lower-casing and `trim`. */
module Strings {

  predicate StartsWith(t: string, p: string) {
    |p| <= |t| && t[..|p|] == p
  }

  /** `p` occurs somewhere in `t`: JavaScript `t.includes(p)`. */
  predicate Occurs(t: string, p: string)
    decreases |t|
  {
    StartsWith(t, p) || (|t| > 0 && Occurs(t[1..], p))
  }

  /** No curly brace anywhere in `s`. */
  predicate BraceFree(s: string) {
    forall i :: 0 <= i < |s| ==> s[i] != '{' && s[i] != '}'
  }

  /** The placeholder `{key}` that a template writes for a variable. */
  function Placeholder(key: string): (p: string)
    ensures |p| == |key| + 2 && p[0] == '{' && p[|p| - 1] == '}'
  {
    "{" + key + "}"
  }

  /** JavaScript `s.replaceAll(pat, rep)` for a non-empty literal pattern and a replacement
      without `$` patterns: scan left to right, replace every non-overlapping match. */
  function ReplaceAll(s: string, pat: string, rep: string): string
    requires pat != []
    decreases |s|
  {
    if |s| < |pat| then s
    else if s[..|pat|] == pat then rep + ReplaceAll(s[|pat|..], pat, rep)
    else [s[0]] + ReplaceAll(s[1..], pat, rep)
  }

  // ---------------------------------------------------------------- occurrences

  lemma {:induction false} OccursFits(t: string, p: string)
    requires Occurs(t, p)
    ensures |p| <= |t|
    decreases |t|
  {
    if !StartsWith(t, p) {
      OccursFits(t[1..], p);
    }
  }

  /** An occurrence in a suffix is an occurrence in the whole. */
  lemma {:induction false} OccursInSuffix(x: string, y: string, p: string)
    requires Occurs(y, p)
    ensures Occurs(x + y, p)
    decreases |x|
  {
    if x != [] {
      assert (x + y)[1..] == x[1..] + y;
      OccursInSuffix(x[1..], y, p);
    } else {
      assert x + y == y;
    }
  }

  /** A pattern that opens with `{` cannot start inside a prefix that has no `{`. */
  lemma {:induction false} OccursPastPlainPrefix(x: string, y: string, p: string)
    requires p != [] && p[0] == '{'
    requires '{' !in x
    requires Occurs(x + y, p)
    ensures Occurs(y, p)
    decreases |x|
  {
    if x == [] {
      assert x + y == y;
    } else {
      assert (x + y)[0] == x[0] != '{';
      assert (x + y)[1..] == x[1..] + y;
      OccursPastPlainPrefix(x[1..], y, p);
    }
  }

  /** A string without `{` contains no placeholder-shaped pattern. */
  lemma {:induction false} NoOpenBraceNoOccurrence(s: string, p: string)
    requires p != [] && p[0] == '{'
    requires '{' !in s
    ensures !Occurs(s, p)
    decreases |s|
  {
    if s != [] {
      assert s[0] != '{';
      NoOpenBraceNoOccurrence(s[1..], p);
    }
  }

  /** Two placeholders with brace-free keys that both start `t` are the same placeholder. */
  lemma PlaceholderPrefixUnique(t: string, a: string, b: string)
    requires BraceFree(a) && BraceFree(b)
    requires StartsWith(t, Placeholder(a)) && StartsWith(t, Placeholder(b))
    ensures a == b
  {
    if |a| != |b| {
      assert false;
    }
    assert forall i :: 0 <= i < |a| ==> a[i] == Placeholder(a)[i + 1] == t[i + 1] == Placeholder(b)[i + 1] == b[i];
  }

  /** A pattern holding a character that `t` lacks does not occur in `t`. */
  lemma {:induction false} ForeignCharNotOccurs(t: string, p: string, c: char)
    requires c in p && c !in t
    ensures !Occurs(t, p)
    decreases |t|
  {
    if t != [] {
      ForeignCharNotOccurs(t[1..], p, c);
    }
    var i :| 0 <= i < |p| && p[i] == c;
    if |p| <= |t| {
      assert t[i] in t;
      assert t[..|p|][i] != p[i];
    }
  }

  // ---------------------------------------------------------------- replaceAll

  /** Replacing a pattern that does not occur changes nothing. */
  lemma {:induction false} ReplaceAllAbsent(s: string, pat: string, rep: string)
    requires pat != []
    requires !Occurs(s, pat)
    ensures ReplaceAll(s, pat, rep) == s
    decreases |s|
  {
    if |s| >= |pat| {
      ReplaceAllAbsent(s[1..], pat, rep);
    }
  }

  /** Replacing a pattern by itself is the identity. */
  lemma {:induction false} ReplaceAllBySelf(s: string, pat: string)
    requires pat != []
    ensures ReplaceAll(s, pat, pat) == s
    decreases |s|
  {
    if |s| >= |pat| {
      if s[..|pat|] == pat {
        ReplaceAllBySelf(s[|pat|..], pat);
        assert s == s[..|pat|] + s[|pat|..];
      } else {
        ReplaceAllBySelf(s[1..], pat);
        assert s == [s[0]] + s[1..];
      }
    }
  }

  /** A prefix without `{` passes through replacement of a `{`-pattern untouched. */
  lemma {:induction false} ReplaceAllPlainPrefix(x: string, y: string, pat: string, rep: string)
    requires pat != [] && pat[0] == '{'
    requires '{' !in x
    ensures ReplaceAll(x + y, pat, rep) == x + ReplaceAll(y, pat, rep)
    decreases |x|
  {
    if x == [] {
      assert x + y == y;
    } else {
      var s := x + y;
      assert s[0] == x[0] != '{';
      assert s[1..] == x[1..] + y;
      ReplaceAllPlainPrefix(x[1..], y, pat, rep);
      if |s| < |pat| {
        assert |y| < |pat|;
      } else {
        assert s[..|pat|][0] != pat[0];
      }
    }
  }

  /** A match at the front is replaced, and scanning resumes after it. */
  lemma ReplaceAllMatchPrefix(y: string, pat: string, rep: string)
    requires pat != []
    ensures ReplaceAll(pat + y, pat, rep) == rep + ReplaceAll(y, pat, rep)
  {
    var s := pat + y;
    assert s[..|pat|] == pat && s[|pat|..] == y;
  }

  /** A text holding one occurrence, after a brace-free prefix, has just that one replaced. */
  lemma ReplaceAllSingle(x: string, y: string, pat: string, rep: string)
    requires pat != [] && pat[0] == '{'
    requires '{' !in x && !Occurs(y, pat)
    ensures ReplaceAll(x + pat + y, pat, rep) == x + rep + y
  {
    assert x + pat + y == x + (pat + y);
    ReplaceAllPlainPrefix(x, pat + y, pat, rep);
    ReplaceAllMatchPrefix(y, pat, rep);
    ReplaceAllAbsent(y, pat, rep);
  }

  /** A brace-free prefix survives replacement of a `{`-pattern. */
  lemma {:induction false} ReplaceAllKeepsPlainStart(u: string, w: string, pat: string, rep: string)
    requires pat != [] && pat[0] == '{'
    requires '{' !in w
    requires StartsWith(u, w)
    ensures StartsWith(ReplaceAll(u, pat, rep), w)
    decreases |u|
  {
    if w != [] && |u| >= |pat| {
      assert u[0] == w[0] != '{';
      assert u[..|pat|][0] != pat[0];
      assert StartsWith(u[1..], w[1..]) by {
        assert u[1..][..|w| - 1] == u[..|w|][1..];
      }
      ReplaceAllKeepsPlainStart(u[1..], w[1..], pat, rep);
    }
  }

  /** A brace-free replacement that is not part of `w` cannot begin the text `w}`. */
  lemma ReplacementNotClosing(rep: string, tail: string, w: string)
    requires BraceFree(w) && BraceFree(rep) && !Occurs(w, rep)
    ensures !StartsWith(rep + tail, w + "}")
  {
    var r, wc := rep + tail, w + "}";
    if |rep| <= |w| {
      assert !StartsWith(w, rep);
      assert r[..|rep|] == rep;
      assert wc[..|rep|] == w[..|rep|];
    } else {
      assert r[|w|] == rep[|w|] != '}';
      assert wc[|w|] == '}';
    }
  }

  /** If the replaced text begins with `w}` (w brace-free) and the brace-free replacement
      is not part of `w`, then the original text already began with `w}`. */
  lemma {:induction false} ReplaceAllClosingPreimage(u: string, w: string, pat: string, rep: string)
    requires pat != []
    requires BraceFree(w) && BraceFree(rep) && !Occurs(w, rep)
    requires StartsWith(ReplaceAll(u, pat, rep), w + "}")
    ensures StartsWith(u, w + "}")
    decreases |u|
  {
    var r := ReplaceAll(u, pat, rep);
    var wc := w + "}";
    if |u| >= |pat| {
      if u[..|pat|] == pat {
        var tail := ReplaceAll(u[|pat|..], pat, rep);
        assert r == rep + tail;
        ReplacementNotClosing(rep, tail, w);
        assert false;
      } else {
        var tail := ReplaceAll(u[1..], pat, rep);
        assert r == [u[0]] + tail;
        if w == [] {
          assert u[0] == r[0] == '}';
        } else {
          assert u[0] == r[0] == w[0];
          assert StartsWith(tail, w[1..] + "}") by {
            assert w[1..] + "}" == wc[1..];
            assert r[1..] == tail;
            assert tail[..|wc| - 1] == r[..|wc|][1..];
          }
          assert !Occurs(w[1..], rep);
          assert BraceFree(w[1..]);
          ReplaceAllClosingPreimage(u[1..], w[1..], pat, rep);
          assert u[..|wc|] == [u[0]] + u[1..][..|wc| - 1];
        }
      }
    }
  }

  /** Replacing any pattern by a brace-free value that is not part of `key` creates no new
      `{key}`, and after replacing `{key}` itself none is left. */
  lemma {:induction false} ReplaceAllCreatesNoPlaceholder(s: string, pat: string, rep: string, key: string)
    requires pat != []
    requires BraceFree(key) && BraceFree(rep) && !Occurs(key, rep)
    ensures Occurs(ReplaceAll(s, pat, rep), Placeholder(key)) ==> Occurs(s, Placeholder(key)) && Placeholder(key) != pat
    decreases |s|
  {
    var ph := Placeholder(key);
    var r := ReplaceAll(s, pat, rep);
    if !Occurs(r, ph) {
    } else if |s| < |pat| {
      OccursFits(s, ph);
    } else if s[..|pat|] == pat {
      var rest := s[|pat|..];
      assert r == rep + ReplaceAll(rest, pat, rep);
      assert '{' !in rep;
      OccursPastPlainPrefix(rep, ReplaceAll(rest, pat, rep), ph);
      ReplaceAllCreatesNoPlaceholder(rest, pat, rep, key);
      assert s == s[..|pat|] + rest;
      OccursInSuffix(s[..|pat|], rest, ph);
    } else {
      var tail := ReplaceAll(s[1..], pat, rep);
      assert r == [s[0]] + tail;
      assert r[1..] == tail;
      if StartsWith(r, ph) {
        assert s[0] == r[0] == '{';
        assert StartsWith(tail, key + "}") by {
          assert key + "}" == ph[1..];
          assert tail[..|ph| - 1] == r[..|ph|][1..];
        }
        ReplaceAllClosingPreimage(s[1..], key, pat, rep);
        assert s[..|ph|] == [s[0]] + s[1..][..|ph| - 1];
        assert ph == [s[0]] + (key + "}");
        assert StartsWith(s, ph);
      } else {
        ReplaceAllCreatesNoPlaceholder(s[1..], pat, rep, key);
      }
    }
  }

  /** Replacing `{other}` leaves every occurrence of a different placeholder `{key}` in place. */
  lemma {:induction false} ReplaceAllKeepsOtherPlaceholder(s: string, other: string, rep: string, key: string)
    requires BraceFree(other) && BraceFree(key) && other != key
    requires Occurs(s, Placeholder(key))
    ensures Occurs(ReplaceAll(s, Placeholder(other), rep), Placeholder(key))
    decreases |s|
  {
    var pat := Placeholder(other);
    var ph := Placeholder(key);
    if |s| >= |pat| {
      if s[..|pat|] == pat {
        var rest := s[|pat|..];
        if StartsWith(s, ph) {
          PlaceholderPrefixUnique(s, other, key);
        }
        assert Occurs(s[1..], ph);
        assert s[1..] == (other + "}") + rest;
        assert '{' !in other + "}" by {
          assert forall i :: 0 <= i < |other + "}"| ==> (other + "}")[i] != '{';
        }
        OccursPastPlainPrefix(other + "}", rest, ph);
        ReplaceAllKeepsOtherPlaceholder(rest, other, rep, key);
        OccursInSuffix(rep, ReplaceAll(rest, pat, rep), ph);
      } else {
        var tail := ReplaceAll(s[1..], pat, rep);
        var r := [s[0]] + tail;
        if StartsWith(s, ph) {
          var kc := key + "}";
          assert '{' !in kc by {
            assert forall i :: 0 <= i < |kc| ==> kc[i] != '{';
          }
          assert StartsWith(s[1..], kc) by {
            assert kc == ph[1..];
            assert s[1..][..|kc|] == s[..|ph|][1..];
          }
          ReplaceAllKeepsPlainStart(s[1..], kc, pat, rep);
          assert r[..|ph|] == [s[0]] + tail[..|kc|];
          assert StartsWith(r, ph);
        } else {
          ReplaceAllKeepsOtherPlaceholder(s[1..], other, rep, key);
          assert r[1..] == tail;
        }
      }
    }
  }

  // ---------------------------------------------------------------- case

  /** ASCII lower-casing of one character; other characters are unchanged. */
  function LowerChar(c: char): (d: char)
    ensures !('A' <= d <= 'Z')
    ensures 'a' <= d <= 'z' ==> d == c || d as int == c as int + 32
    ensures !('A' <= c <= 'Z') ==> d == c
  {
    if 'A' <= c <= 'Z' then (c as int + 32) as char else c
  }

  /** `s.toLowerCase()`, restricted to the ASCII letters. */
  function ToLower(s: string): (r: string)
    ensures |r| == |s|
    ensures forall i :: 0 <= i < |s| ==> r[i] == LowerChar(s[i])
  {
    seq(|s|, i requires 0 <= i < |s| => LowerChar(s[i]))
  }

  /** Lower-casing twice is lower-casing once. */
  lemma ToLowerIdempotent(s: string)
    ensures ToLower(ToLower(s)) == ToLower(s)
  {
  }

  // ---------------------------------------------------------------- trim

  /** The characters JavaScript's `String.prototype.trim` removes: the WhiteSpace
      (tab, vertical tab, form feed, no-break and zero-width no-break space, every space
      separator) and LineTerminator (LF, CR, LS, PS) code points of ECMAScript. */
  predicate IsWhitespace(c: char) {
    ('\U{0009}' <= c <= '\U{000D}') || c == ' ' || c == '\U{00A0}' || c == '\U{1680}'
    || ('\U{2000}' <= c <= '\U{200A}') || c == '\U{2028}' || c == '\U{2029}' || c == '\U{202F}'
    || c == '\U{205F}' || c == '\U{3000}' || c == '\U{FEFF}'
  }

  /** Neither the first nor the last character of `s` is whitespace. */
  predicate Trimmed(s: string) {
    s == [] || (!IsWhitespace(s[0]) && !IsWhitespace(s[|s| - 1]))
  }

  /** `s` with its leading whitespace removed. */
  function TrimStart(s: string): (r: string)
    ensures |r| <= |s|
    ensures r == [] || !IsWhitespace(r[0])
  {
    if s != [] && IsWhitespace(s[0]) then TrimStart(s[1..]) else s
  }

  /** `TrimStart` cuts a whitespace prefix and keeps the rest. */
  lemma {:induction false} TrimStartCuts(s: string)
    ensures var r := TrimStart(s);
      && r == s[|s| - |r|..]
      && forall i :: 0 <= i < |s| - |r| ==> IsWhitespace(s[i])
  {
    if s != [] && IsWhitespace(s[0]) {
      TrimStartCuts(s[1..]);
      assert forall i :: 1 <= i < |s| ==> s[i] == s[1..][i - 1];
    }
  }

  /** `s` with its trailing whitespace removed. */
  function TrimEnd(s: string): (r: string)
    ensures |r| <= |s|
    ensures r == [] || !IsWhitespace(r[|r| - 1])
  {
    if s != [] && IsWhitespace(s[|s| - 1]) then TrimEnd(s[..|s| - 1]) else s
  }

  /** `TrimEnd` cuts a whitespace suffix and keeps the rest. */
  lemma {:induction false} TrimEndCuts(s: string)
    ensures var r := TrimEnd(s);
      && r == s[..|r|]
      && forall i :: |r| <= i < |s| ==> IsWhitespace(s[i])
  {
    if s != [] && IsWhitespace(s[|s| - 1]) {
      TrimEndCuts(s[..|s| - 1]);
    }
  }

  /** How many whitespace characters `trim` removes from the front of `s`. */
  function TrimOffset(s: string): (a: nat)
    ensures a <= |s|
  {
    |s| - |TrimStart(s)|
  }

  /** JavaScript `s.trim()`: `s` without its leading and trailing whitespace. */
  function Trim(s: string): (r: string)
    ensures Trimmed(r) && |r| <= |s|
  {
    TrimStartCuts(s);
    TrimEndOfSuffix(s, TrimStart(s));
    TrimEnd(TrimStart(s))
  }

  /** `trim` returns the slice of `s` between a whitespace prefix and a whitespace suffix. */
  lemma TrimSlice(s: string)
    ensures var a, r := TrimOffset(s), Trim(s);
      && a + |r| <= |s| && r == s[a..a + |r|]
      && (forall i :: 0 <= i < a ==> IsWhitespace(s[i]))
      && (forall i :: a + |r| <= i < |s| ==> IsWhitespace(s[i]))
  {
    TrimStartCuts(s);
    TrimEndOfSuffix(s, TrimStart(s));
  }

  /** Trimming the end of a suffix of `s` leaves a slice of `s` followed only by whitespace. */
  lemma TrimEndOfSuffix(s: string, front: string)
    requires |front| <= |s| && front == s[|s| - |front|..]
    requires front == [] || !IsWhitespace(front[0])
    ensures var a, r := |s| - |front|, TrimEnd(front);
      && Trimmed(r) && a + |r| <= |s| && r == s[a..a + |r|]
      && forall i :: a + |r| <= i < |s| ==> IsWhitespace(s[i])
  {
    var a, r := |s| - |front|, TrimEnd(front);
    TrimEndCuts(front);
    assert r == s[a..a + |r|] by {
      assert r == front[..|r|];
    }
    assert r != [] ==> r[0] == front[0];
    forall i | a + |r| <= i < |s| ensures IsWhitespace(s[i]) {
      assert s[i] == front[i - a];
      assert IsWhitespace(front[i - a]);
    }
  }

  /** Trimming a string without surrounding whitespace gives it back. */
  lemma TrimOfTrimmed(s: string)
    requires Trimmed(s)
    ensures Trim(s) == s
  {
    assert TrimStart(s) == s;
  }

  /** Trimming is idempotent. */
  lemma TrimIdempotent(s: string)
    ensures Trim(Trim(s)) == Trim(s)
  {
    TrimOfTrimmed(Trim(s));
  }
}
