/**
 The Python paths of a tool catalog, and the check for collisions between neighbours in sorted
 order (tool_provider.go). Strings are ordered by their characters, as bytes are.
 */
module ToolPaths {

  // --------------------------------------------------------------------- identifiers

  predicate IsLetter(c: char) { 'a' <= c <= 'z' || 'A' <= c <= 'Z' || c == '_' }

  predicate IsDigit(c: char) { '0' <= c <= '9' }

  predicate IsIdentifier(s: string) {
    s != "" && IsLetter(s[0]) && forall i :: 0 <= i < |s| ==> IsLetter(s[i]) || IsDigit(s[i])
  }

  const KEYWORDS: set<string> := {
    "False", "None", "True", "and", "as", "assert", "async", "await", "break", "class", "continue", "def",
    "del", "elif", "else", "except", "finally", "for", "from", "global", "if", "import", "in", "is",
    "lambda", "nonlocal", "not", "or", "pass", "raise", "return", "try", "while", "with", "yield"
  }

  const RESERVED_ROOTS: set<string> := {"inputs", "__name__", "__builtins__"}

  const RESERVED_PREFIX: string := "_pysolate"

  // --------------------------------------------------------------------- dotted paths

  /** The parts between the dots; there is always at least one. */
  function Split(s: string): (r: seq<string>)
    ensures |r| > 0
    ensures forall i, k :: 0 <= i < |r| && 0 <= k < |r[i]| ==> r[i][k] != '.'
  {
    if s == "" then [""]
    else
      var rest := Split(s[1..]);
      if s[0] == '.' then [""] + rest else [[s[0]] + rest[0]] + rest[1..]
  }

  function Join(parts: seq<string>): string
    requires |parts| > 0
  {
    if |parts| == 1 then parts[0] else parts[0] + "." + Join(parts[1..])
  }

  lemma {:induction false} JoinSplit(s: string)
    ensures Join(Split(s)) == s
  {
    if s != "" {
      JoinSplit(s[1..]);
      var rest := Split(s[1..]);
      var parts := Split(s);
      if s[0] == '.' {
        assert parts[1..] == rest;
        assert s == "" + "." + s[1..];
      } else if |rest| > 1 {
        assert parts[1..] == rest[1..];
        assert s == [s[0]] + s[1..];
      } else {
        assert s == [s[0]] + s[1..];
      }
    }
  }

  predicate ValidPart(part: string) {
    IsIdentifier(part) && part !in KEYWORDS
  }

  predicate ValidRoot(part: string) {
    part !in RESERVED_ROOTS && !(RESERVED_PREFIX <= part)
  }

  predicate ValidPath(s: string) {
    var parts := Split(s);
    (forall i :: 0 <= i < |parts| ==> ValidPart(parts[i])) && ValidRoot(parts[0])
  }

  /** Every character of a valid path is a dot or sorts above the dot. */
  lemma {:induction false} NothingBelowDot(s: string)
    requires forall i :: 0 <= i < |Split(s)| ==> forall k :: 0 <= k < |Split(s)[i]| ==> IsLetter(Split(s)[i][k]) || IsDigit(Split(s)[i][k])
    ensures forall k :: 0 <= k < |s| ==> s[k] == '.' || s[k] > '.'
  {
    if s != "" {
      var rest, parts := Split(s[1..]), Split(s);
      forall i, k | 0 <= i < |rest| && 0 <= k < |rest[i]| ensures IsLetter(rest[i][k]) || IsDigit(rest[i][k]) {
        if s[0] == '.' {
          assert parts[i + 1] == rest[i];
        } else if i == 0 {
          assert parts[0][k + 1] == rest[0][k];
        } else {
          assert parts[i] == rest[i];
        }
      }
      NothingBelowDot(s[1..]);
      if s[0] != '.' { assert parts[0][0] == s[0]; }
      forall k | 0 <= k < |s| ensures s[k] == '.' || s[k] > '.' {
        if k > 0 { assert s[k] == s[1..][k - 1]; }
      }
    }
  }

  lemma ValidHasNothingBelowDot(s: string)
    requires ValidPath(s)
    ensures forall k :: 0 <= k < |s| ==> s[k] == '.' || s[k] > '.'
  {
    var parts := Split(s);
    forall i | 0 <= i < |parts|
      ensures forall k :: 0 <= k < |parts[i]| ==> IsLetter(parts[i][k]) || IsDigit(parts[i][k])
    {
      assert ValidPart(parts[i]);
    }
    NothingBelowDot(s);
  }

  // ----------------------------------------------------------------------------- order

  predicate Le(a: string, b: string) {
    a == "" || (b != "" && (a[0] < b[0] || (a[0] == b[0] && Le(a[1..], b[1..]))))
  }

  lemma {:induction false} LeTrans(a: string, b: string, c: string)
    requires Le(a, b) && Le(b, c)
    ensures Le(a, c)
  {
    if a != "" && a[0] == b[0] == c[0] { LeTrans(a[1..], b[1..], c[1..]); }
  }

  lemma {:induction false} LeTotal(a: string, b: string)
    ensures Le(a, b) || Le(b, a)
    ensures Le(a, b) && Le(b, a) ==> a == b
  {
    if a != "" && b != "" && a[0] == b[0] {
      LeTotal(a[1..], b[1..]);
      assert a == [a[0]] + a[1..] && b == [b[0]] + b[1..];
    }
  }

  lemma {:induction false} PrefixIsLe(a: string, b: string)
    requires a <= b
    ensures Le(a, b)
  {
    if a != "" { PrefixIsLe(a[1..], b[1..]); }
  }

  predicate Sorted(paths: seq<string>) {
    forall i, j :: 0 <= i < j < |paths| ==> Le(paths[i], paths[j])
  }

  // ------------------------------------------------------------------------- collisions

  /** `q` is `p`, or lies below it. */
  predicate Covers(p: string, q: string) {
    p == q || p + "." <= q
  }

  predicate Conflict(p: string, q: string) {
    Covers(p, q) || Covers(q, p)
  }

  /** The check of the catalog: a path that its neighbour in sorted order covers. */
  predicate NeighboursCollide(paths: seq<string>) {
    exists i :: 0 < i < |paths| && Covers(paths[i - 1], paths[i])
  }

  /** Nothing that sorts between a path and one that it covers is outside what it covers. */
  lemma {:induction false} Between(p: string, r: string, q: string)
    requires Covers(p, q) && Le(p, r) && Le(r, q)
    requires forall k :: 0 <= k < |r| ==> r[k] == '.' || r[k] > '.'
    ensures Covers(p, r)
  {
    if p == "" {
      if q != "" && r != "" {
        assert q[0] == '.' && r[0] == '.';
        assert "" + "." <= r;
      }
    } else {
      assert p[0] == q[0] && r != "" && r[0] == p[0];
      assert p + "." <= q ==> p[1..] + "." <= q[1..] by {
        if p + "." <= q { assert (p + ".")[1..] == p[1..] + "."; }
      }
      Between(p[1..], r[1..], q[1..]);
      assert p == [p[0]] + p[1..] && r == [r[0]] + r[1..];
      assert p + "." == [p[0]] + (p[1..] + ".");
    }
  }

  /** Looking at neighbours finds every collision there is, and nothing else. */
  lemma NeighboursSuffice(paths: seq<string>)
    requires Sorted(paths) && forall i :: 0 <= i < |paths| ==> ValidPath(paths[i])
    ensures NeighboursCollide(paths) <==> exists i, j :: 0 <= i < j < |paths| && Conflict(paths[i], paths[j])
  {
    if NeighboursCollide(paths) {
      var i :| 0 < i < |paths| && Covers(paths[i - 1], paths[i]);
      assert Conflict(paths[i - 1], paths[i]);
    }
    if i, j :| 0 <= i < j < |paths| && Conflict(paths[i], paths[j]) {
      var p, q, r := paths[i], paths[j], paths[i + 1];
      if !Covers(p, q) {
        assert q <= q + ".";
        PrefixIsLe(q, p);
        LeTotal(p, q);
      }
      LeRefl(r);
      ValidHasNothingBelowDot(r);
      assert Le(p, r) && Le(r, q);
      Between(p, r, q);
      assert Covers(paths[i + 1 - 1], paths[i + 1]);
    }
  }

  lemma {:induction false} LeRefl(a: string)
    ensures Le(a, a)
  {
    if a != "" { LeRefl(a[1..]); }
  }

  // ------------------------------------------------------------------ paths as lists of parts

  lemma {:induction false} SplitAt(p: string, t: string)
    ensures Split(p + "." + t) == Split(p) + Split(t)
  {
    if p == "" {
      assert (p + "." + t)[1..] == t;
    } else {
      assert (p + "." + t)[1..] == p[1..] + "." + t;
      SplitAt(p[1..], t);
    }
  }

  lemma {:induction false} JoinAppend(a: seq<string>, b: seq<string>)
    requires |a| > 0 && |b| > 0
    ensures Join(a + b) == Join(a) + "." + Join(b)
  {
    if |a| == 1 {
      assert (a + b)[1..] == b;
    } else {
      assert (a + b)[1..] == a[1..] + b;
      JoinAppend(a[1..], b);
    }
  }

  /** A path covers another exactly when its parts are the first parts of the other. */
  lemma CoversIsPrefix(p: string, q: string)
    ensures Covers(p, q) <==> Split(p) <= Split(q)
  {
    if Covers(p, q) && p != q {
      var t := q[|p| + 1..];
      assert q == p + "." + t;
      SplitAt(p, t);
    }
    if Split(p) <= Split(q) { PrefixCovers(p, q, Split(q)[|Split(p)|..]); }
  }

  lemma PrefixCovers(p: string, q: string, rest: seq<string>)
    requires Split(q) == Split(p) + rest
    ensures Covers(p, q)
  {
    JoinSplit(p);
    JoinSplit(q);
    if rest != [] {
      JoinAppend(Split(p), rest);
      assert q == p + "." + Join(rest);
    } else {
      assert Split(p) + rest == Split(p);
    }
  }
}
