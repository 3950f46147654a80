/**
 * The parts of Go's `strings` and `strconv` packages the operator relies on,
 * written out by their documented behaviour.
 */
module Strings {
  import opened Kube

  predicate HasSuffix(s: string, suffix: string)
  {
    |suffix| <= |s| && s[|s| - |suffix|..] == suffix
  }

  /** `strings.TrimSuffix`: `s` without `suffix` when it ends with it, else `s`. */
  function TrimSuffix(s: string, suffix: string): (r: string)
    ensures HasSuffix(s, suffix) ==> r + suffix == s
    ensures !HasSuffix(s, suffix) ==> r == s
  {
    if HasSuffix(s, suffix) then s[..|s| - |suffix|] else s
  }

  /** Trimming a non-empty suffix changes `s` exactly when `s` ends with it, and leaves what precedes it. */
  lemma TrimSuffixChanges(s: string, suffix: string, t: string)
    requires |suffix| > 0
    ensures TrimSuffix(s, suffix) != s <==> HasSuffix(s, suffix)
    ensures HasSuffix(s, suffix) ==> (TrimSuffix(s, suffix) == t <==> s == t + suffix)
  {
    if HasSuffix(s, suffix) {
      var r := TrimSuffix(s, suffix);
      assert |r| < |s|;
      if s == t + suffix {
        assert t == s[..|s| - |suffix|];
      }
    }
  }

  /** `strings.Split(s, string(sep))` for a one-character separator. */
  function Split(s: string, sep: char): seq<string>
    decreases |s|
  {
    if |s| == 0 then [""]
    else
      var rest := Split(s[1..], sep);
      if s[0] == sep then [""] + rest
      else [[s[0]] + rest[0]] + rest[1..]
  }

  /** `strings.Join(parts, string(sep))`. */
  function Join(parts: seq<string>, sep: char): string
    decreases |parts|
  {
    if |parts| == 0 then ""
    else if |parts| == 1 then parts[0]
    else parts[0] + [sep] + Join(parts[1..], sep)
  }

  /** Joining one more part appends the separator and the part. */
  lemma {:induction false} JoinAppend(parts: seq<string>, last: string, sep: char)
    requires |parts| >= 1
    ensures Join(parts + [last], sep) == Join(parts, sep) + [sep] + last
    decreases |parts|
  {
    if |parts| > 1 {
      JoinAppend(parts[1..], last, sep);
      assert (parts + [last])[1..] == parts[1..] + [last];
    }
  }

  /** Number of positions of `s` holding `c`. */
  function CountChar(s: string, c: char): nat
  {
    if |s| == 0 then 0 else (if s[0] == c then 1 else 0) + CountChar(s[1..], c)
  }

  lemma {:induction false} SplitNonEmpty(s: string, sep: char)
    ensures |Split(s, sep)| >= 1
  {
    if |s| > 0 {
      SplitNonEmpty(s[1..], sep);
    }
  }

  /** Split yields one more part than there are separators, and no part holds a separator. */
  lemma {:induction false} SplitShape(s: string, sep: char)
    ensures |Split(s, sep)| == CountChar(s, sep) + 1
    ensures forall i :: 0 <= i < |Split(s, sep)| ==> sep !in Split(s, sep)[i]
  {
    if |s| > 0 {
      SplitShape(s[1..], sep);
      SplitNonEmpty(s[1..], sep);
      var rest := Split(s[1..], sep);
      if s[0] != sep {
        assert forall i :: 1 <= i < |Split(s, sep)| ==> Split(s, sep)[i] == rest[i];
        assert Split(s, sep)[0] == [s[0]] + rest[0];
      }
    }
  }

  /** Joining what Split produced gives the original string back. */
  lemma {:induction false} JoinSplit(s: string, sep: char)
    ensures Join(Split(s, sep), sep) == s
  {
    if |s| > 0 {
      JoinSplit(s[1..], sep);
      SplitNonEmpty(s[1..], sep);
      var rest := Split(s[1..], sep);
      if s[0] == sep {
        assert Split(s, sep)[1..] == rest;
      } else if |rest| == 1 {
        assert Join(rest, sep) == rest[0];
      } else {
        var parts := Split(s, sep);
        assert parts[1..] == rest[1..];
        calc {
          Join(parts, sep);
          parts[0] + [sep] + Join(rest[1..], sep);
          [s[0]] + (rest[0] + [sep] + Join(rest[1..], sep));
          [s[0]] + Join(rest, sep);
          s;
        }
      }
    }
  }

  /** Splitting a join of separator-free parts gives the parts back. */
  lemma {:induction false} SplitJoin(parts: seq<string>, sep: char)
    requires |parts| >= 1
    requires forall i :: 0 <= i < |parts| ==> sep !in parts[i]
    ensures Split(Join(parts, sep), sep) == parts
  {
    if |parts| == 1 {
      SplitNoSep(parts[0], sep);
    } else {
      SplitJoin(parts[1..], sep);
      SplitPrefix(parts[0], Join(parts[1..], sep), sep);
      assert [parts[0]] + parts[1..] == parts;
    }
  }

  lemma {:induction false} SplitNoSep(s: string, sep: char)
    requires sep !in s
    ensures Split(s, sep) == [s]
  {
    if |s| > 0 {
      SplitNoSep(s[1..], sep);
      assert [s[0]] + s[1..] == s;
    }
  }

  /** A separator-free prefix followed by a separator becomes its own first part. */
  lemma {:induction false} SplitPrefix(p: string, rest: string, sep: char)
    requires sep !in p
    ensures Split(p + [sep] + rest, sep) == [p] + Split(rest, sep)
    decreases |p|
  {
    if |p| == 0 {
      assert p + [sep] + rest == [sep] + rest;
      assert ([sep] + rest)[1..] == rest;
    } else {
      SplitPrefix(p[1..], rest, sep);
      var s := p + [sep] + rest;
      assert s[0] == p[0] && s[1..] == p[1..] + [sep] + rest;
      assert [p[0]] + p[1..] == p;
    }
  }

  /**
   * `strings.ReplaceAll`: every non-overlapping occurrence of `pat`, scanning
   * left to right, becomes `rep`; an empty `pat` matches before every character
   * and at the end.
   */
  function ReplaceAll(s: string, pat: string, rep: string): string
    decreases |s|
  {
    if |pat| == 0 then
      (if |s| == 0 then rep else rep + [s[0]] + ReplaceAll(s[1..], pat, rep))
    else if |s| < |pat| then s
    else if s[..|pat|] == pat then rep + ReplaceAll(s[|pat|..], pat, rep)
    else [s[0]] + ReplaceAll(s[1..], pat, rep)
  }

  /** Text that cannot start an occurrence of `pat` anywhere passes through unchanged. */
  lemma {:induction false} ReplaceAllSkipsClean(a: string, b: string, pat: string, rep: string)
    requires |pat| > 0 && pat[0] !in a
    ensures ReplaceAll(a + b, pat, rep) == a + ReplaceAll(b, pat, rep)
    decreases |a|
  {
    if |a| > 0 {
      var s := a + b;
      assert s[0] == a[0] != pat[0];
      assert |s| >= |pat| ==> s[..|pat|][0] == s[0];
      ReplaceAllSkipsClean(a[1..], b, pat, rep);
      assert s[1..] == a[1..] + b;
      assert [a[0]] + a[1..] == a;
    } else {
      assert a + b == b;
    }
  }

  /**
   * A placeholder "@w@" other than `pat` (its first letter differs from the
   * one after `pat`'s leading "@", and it is not followed by that letter)
   * passes through unchanged.
   */
  lemma ReplaceAllSkipsMark(w: string, b: string, pat: string, rep: string)
    requires |pat| >= 2 && pat[0] == '@'
    requires |w| > 0 && '@' !in w && w[0] != pat[1]
    requires |b| == 0 || b[0] != pat[1]
    ensures ReplaceAll("@" + w + "@" + b, pat, rep) == "@" + w + "@" + ReplaceAll(b, pat, rep)
  {
    var s := "@" + w + "@" + b;
    if |b| < |pat| {
      assert ReplaceAll(b, pat, rep) == b;
    }
    if |s| >= |pat| {
      assert s[..|pat|][1] == w[0];
    }
    assert s[1..] == w + ("@" + b);
    ReplaceAllSkipsClean(w, "@" + b, pat, rep);
    var t := "@" + b;
    if |t| >= |pat| {
      assert t[..|pat|][1] == b[0];
      assert t[1..] == b;
    }
  }

  /** Text free of `pat`'s first character is left as it is. */
  lemma ReplaceAllClean(a: string, pat: string, rep: string)
    requires |pat| > 0 && pat[0] !in a
    ensures ReplaceAll(a, pat, rep) == a
  {
    ReplaceAllSkipsClean(a, "", pat, rep);
    assert a + "" == a;
  }

  /** An occurrence at the front is replaced and scanning resumes after it. */
  lemma ReplaceAllAtFront(b: string, pat: string, rep: string)
    requires |pat| > 0
    ensures ReplaceAll(pat + b, pat, rep) == rep + ReplaceAll(b, pat, rep)
  {
    var s := pat + b;
    assert s[..|pat|] == pat;
    assert s[|pat|..] == b;
  }

  /** `t` occurs in `s` starting at index `i`. */
  ghost predicate OccursAt(s: string, t: string, i: int)
  {
    0 <= i <= |s| - |t| && s[i..i + |t|] == t
  }

  /** `strings.Contains`: `t` occurs somewhere in `s`. */
  ghost predicate Contains(s: string, t: string)
  {
    exists i :: OccursAt(s, t, i)
  }

  /** Text placed between two others occurs in the whole. */
  lemma ContainsMiddle(a: string, t: string, b: string)
    ensures Contains(a + t + b, t)
  {
    var s := a + t + b;
    assert s[|a|..|a| + |t|] == t;
    assert OccursAt(s, t, |a|);
  }

  /** Of a text made of seven pieces, the second, third, fifth and sixth occur in it. */
  lemma ContainsLines(a: string, b: string, c: string, d: string, e: string, f: string, g: string)
    ensures var s := a + b + c + d + e + f + g;
      Contains(s, b) && Contains(s, c) && Contains(s, e) && Contains(s, f)
  {
    var s := a + b + c + d + e + f + g;
    assert s == a + b + (c + d + e + f + g);
    ContainsMiddle(a, b, c + d + e + f + g);
    assert s == a + b + c + (d + e + f + g);
    ContainsMiddle(a + b, c, d + e + f + g);
    assert s == a + b + c + d + e + (f + g);
    ContainsMiddle(a + b + c + d, e, f + g);
    ContainsMiddle(a + b + c + d + e, f, g);
  }

  /** Appending the same separator and suffix keeps distinct names distinct. */
  lemma SuffixKeepsDistinct(a: string, b: string, sep: string, suffix: string)
    requires a != b
    ensures a + sep + suffix != b + sep + suffix
  {
    if |a| == |b| {
      assert a == (a + sep + suffix)[..|a|] && b == (b + sep + suffix)[..|b|];
    }
  }

  /** `fmt.Sprintf("%q", s)` for text that needs no escaping: the text in double quotes. */
  function Quoted(s: string): (r: string)
    ensures |r| == |s| + 2 && r[0] == '"' && r[|r| - 1] == '"' && r[1..|r| - 1] == s
  {
    "\"" + s + "\""
  }

  function ParseBool(s: string): Option<bool>
  {
    if s in TrueSpellings then Some(true)
    else if s in FalseSpellings then Some(false)
    else None
  }

  /** The spellings `strconv.ParseBool` accepts for true and for false. */
  const TrueSpellings: set<string> := {"1", "t", "T", "TRUE", "true", "True"}
  const FalseSpellings: set<string> := {"0", "f", "F", "FALSE", "false", "False"}
}
