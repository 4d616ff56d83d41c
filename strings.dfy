/** The JavaScript string operations the assistant relies on: `includes`,
    `split` on one character, `join`, and `trim`. Case mapping is not defined
    here: `toLowerCase` / `toUpperCase` are passed around as uninterpreted
    functions of type `CaseMap`. */
module Strings {
  import opened Common

  /** An uninterpreted stand-in for `toLowerCase` or `toUpperCase`. */
  type CaseMap = string -> string

  /** `t` occurs in `s` starting at index `i`. */
  predicate OccursAt(s: string, t: string, i: int) {
    0 <= i <= |s| - |t| && s[i..i + |t|] == t
  }

  /** JavaScript's `s.includes(t)`. */
  predicate Contains(s: string, t: string) {
    exists i | 0 <= i <= |s| - |t| :: OccursAt(s, t, i)
  }

  /** `a + b + c` contains `b`. */
  lemma ContainsMiddle(a: string, b: string, c: string)
    ensures Contains(a + b + c, b)
  {
    assert (a + b + c)[|a|..|a| + |b|] == b;
    assert OccursAt(a + b + c, b, |a|);
  }

  /** A string that starts with `a + b` has `b` right after `a`. */
  lemma PrefixOccurs(s: string, a: string, b: string)
    requires |a| + |b| <= |s| && s[..|a| + |b|] == a + b
    ensures Contains(s, b)
  {
    assert s[|a|..|a| + |b|] == s[..|a| + |b|][|a|..];
    assert OccursAt(s, b, |a|);
  }

  /** Appending to a string keeps what it contains. */
  lemma ContainsExtend(s: string, t: string, tail: string)
    requires Contains(s, t)
    ensures Contains(s + tail, t)
  {
    var i :| 0 <= i <= |s| - |t| && OccursAt(s, t, i);
    assert (s + tail)[i..i + |t|] == s[i..i + |t|];
    assert OccursAt(s + tail, t, i);
  }

  /** Containment is transitive. */
  lemma ContainsTransitive(s: string, u: string, t: string)
    requires Contains(s, u) && Contains(u, t)
    ensures Contains(s, t)
  {
    var i :| 0 <= i <= |s| - |u| && OccursAt(s, u, i);
    var j :| 0 <= j <= |u| - |t| && OccursAt(u, t, j);
    forall k | 0 <= k < |t| ensures s[i + j + k] == t[k] {
      assert u[j..j + |t|][k] == t[k];
      assert s[i..i + |u|][j + k] == u[j + k];
    }
    assert s[i + j..i + j + |t|] == t;
    assert OccursAt(s, t, i + j);
  }

  /** Every string contains the empty string. */
  lemma ContainsEmpty(s: string)
    ensures Contains(s, "")
  {
    assert OccursAt(s, "", 0);
  }

  /** The empty string contains nothing else. */
  lemma EmptyContainsOnlyEmpty(t: string)
    ensures Contains("", t) <==> t == ""
  {
    if t == "" { ContainsEmpty(""); }
  }

  /** `s || d` on strings: the empty string is falsy. */
  function OrElse(s: string, d: string): (r: string)
    ensures d != "" ==> r != ""
    ensures r == s || r == d
    ensures s != "" ==> r == s
  {
    if s == "" then d else s
  }

  // ---------------------------------------------------------------------
  // length

  /** A character outside the Basic Multilingual Plane, which UTF-16 stores
      as a surrogate pair. */
  predicate IsAstral(c: char) {
    '\U{10000}' <= c
  }

  /** JavaScript's `s.length`: the number of UTF-16 code units, one per
      character of the Basic Multilingual Plane and two per astral one. */
  function Utf16Length(s: string): (n: nat)
    ensures |s| <= n <= 2 * |s|
    decreases |s|
  {
    if s == [] then 0
    else Utf16Length(s[..|s| - 1]) + (if IsAstral(s[|s| - 1]) then 2 else 1)
  }

  /** One astral character makes `s.length` exceed the character count. */
  lemma {:induction false} AstralCountsTwice(s: string, k: nat)
    requires k < |s| && IsAstral(s[k])
    ensures Utf16Length(s) > |s|
    decreases |s|
  {
    if k < |s| - 1 {
      var pre := s[..|s| - 1];
      assert pre[k] == s[k];
      AstralCountsTwice(pre, k);
    }
  }

  // ---------------------------------------------------------------------
  // split / join

  /** JavaScript's `s.split(sep)` for a one-character separator. */
  function Split(s: string, sep: char): (r: seq<string>)
    ensures |r| >= 1
    ensures forall k :: 0 <= k < |r| ==> sep !in r[k]
    decreases |s|
  {
    if s == [] then [""]
    else
      var rest := Split(s[1..], sep);
      if s[0] == sep then [""] + rest
      else [[s[0]] + rest[0]] + rest[1..]
  }

  /** JavaScript's `parts.join(sep)`. */
  function Join(parts: seq<string>, sep: string): string
    decreases |parts|
  {
    if parts == [] then ""
    else if |parts| == 1 then parts[0]
    else parts[0] + sep + Join(parts[1..], sep)
  }

  /** Joining the pieces of a split restores the string. */
  lemma {:induction false} JoinSplit(s: string, sep: char)
    ensures Join(Split(s, sep), [sep]) == s
    decreases |s|
  {
    if s != [] {
      var rest := Split(s[1..], sep);
      JoinSplit(s[1..], sep);
      if s[0] == sep {
        assert Split(s, sep) == [""] + rest;
        assert ([""] + rest)[1..] == rest;
      } else {
        var r := Split(s, sep);
        assert r == [[s[0]] + rest[0]] + rest[1..];
        if |rest| == 1 {
          assert r == [[s[0]] + rest[0]];
        } else {
          assert r[1..] == rest[1..];
          assert Join(rest, [sep]) == rest[0] + [sep] + Join(rest[1..], [sep]);
        }
        assert s == [s[0]] + s[1..];
      }
    }
  }

  /** Splitting a join of separator-free pieces gives back the pieces. */
  lemma {:induction false} SplitJoin(parts: seq<string>, sep: char)
    requires |parts| >= 1
    requires forall k :: 0 <= k < |parts| ==> sep !in parts[k]
    ensures Split(Join(parts, [sep]), sep) == parts
    decreases |parts|, |parts[0]|
  {
    var p := parts[0];
    if p == [] {
      if |parts| > 1 {
        SplitJoin(parts[1..], sep);
        assert Join(parts, [sep]) == [sep] + Join(parts[1..], [sep]);
        assert ([sep] + Join(parts[1..], [sep]))[1..] == Join(parts[1..], [sep]);
      }
    } else {
      var tail := [p[1..]] + parts[1..];
      assert tail[1..] == parts[1..];
      forall k | 0 <= k < |tail| ensures sep !in tail[k] {
        if k == 0 { assert forall c :: c in p[1..] ==> c in p; }
      }
      SplitJoin(tail, sep);
      var j := Join(parts, [sep]);
      if |parts| == 1 {
        assert j == p;
        assert Join(tail, [sep]) == p[1..];
      } else {
        assert j == p + [sep] + Join(parts[1..], [sep]);
        assert Join(tail, [sep]) == p[1..] + [sep] + Join(parts[1..], [sep]);
        assert j[1..] == Join(tail, [sep]);
      }
      assert j[0] == p[0] && j[1..] == Join(tail, [sep]);
      assert p == [p[0]] + p[1..];
    }
  }

  /** The last piece of a join: everything after the final separator. */
  lemma {:induction false} JoinLast(parts: seq<string>, sep: string)
    requires |parts| >= 2
    ensures Join(parts, sep) == Join(parts[..|parts| - 1], sep) + sep + parts[|parts| - 1]
    decreases |parts|
  {
    if |parts| > 2 {
      JoinLast(parts[1..], sep);
      assert parts[1..][..|parts| - 2] == parts[..|parts| - 1][1..];
    }
  }

  // ---------------------------------------------------------------------
  // trim

  /** The characters `String.prototype.trim` removes: ECMAScript WhiteSpace
      (tab, vertical tab, form feed, space, no-break space, the byte-order
      mark and the space separators) and LineTerminator. */
  predicate IsWhite(c: char) {
    c == '\t' || c == '\n' || c == '\U{B}' || c == '\U{C}' || c == '\r' || c == ' '
    || c == '\U{A0}' || c == '\U{1680}' || ('\U{2000}' <= c <= '\U{200A}')
    || c == '\U{2028}' || c == '\U{2029}' || c == '\U{202F}' || c == '\U{205F}'
    || c == '\U{3000}' || c == '\U{FEFF}'
  }

  predicate AllWhite(s: string) {
    forall k :: 0 <= k < |s| ==> IsWhite(s[k])
  }

  /** `trimStart`: the suffix left after removing leading white space. */
  function TrimStart(s: string): (r: string)
    ensures |r| <= |s| && r == s[|s| - |r|..]
    ensures AllWhite(s[..|s| - |r|])
    ensures r == "" || !IsWhite(r[0])
  {
    if s != [] && IsWhite(s[0]) then TrimStart(s[1..]) else s
  }

  /** `trimEnd`: the prefix left after removing trailing white space. */
  function TrimEnd(s: string): (r: string)
    ensures |r| <= |s| && r == s[..|r|]
    ensures AllWhite(s[|r|..])
    ensures r == "" || !IsWhite(r[|r| - 1])
  {
    if s != [] && IsWhite(s[|s| - 1]) then TrimEnd(s[..|s| - 1]) else s
  }

  /** JavaScript's `s.trim()`. */
  function Trim(s: string): string {
    TrimEnd(TrimStart(s))
  }

  /** Slicing a suffix of `s` is slicing `s` further along. */
  lemma SliceOfSuffix(s: string, i: nat, a: string, n: nat)
    requires i <= |s| && a == s[i..] && n <= |a|
    ensures s[i..i + n] == a[..n] && s[i + n..] == a[n..]
  {
  }

  /** The trimmed string neither starts nor ends with white space. */
  lemma TrimEnds(s: string)
    ensures Trim(s) == "" || (!IsWhite(Trim(s)[0]) && !IsWhite(Trim(s)[|Trim(s)| - 1]))
  {
    var a := TrimStart(s);
    var r := TrimEnd(a);
    if r != "" {
      // trimEnd only drops trailing characters, so the first one survives.
      assert r[0] == a[..|r|][0];
    }
  }

  /** Peeling white space off the front of `s` (leaving `a`) and then off the
      back of `a` (leaving `r`) keeps a contiguous middle part of `s`. */
  lemma PeelShape(s: string, a: string, r: string) returns (i: nat)
    requires |a| <= |s| && a == s[|s| - |a|..] && AllWhite(s[..|s| - |a|])
    requires |r| <= |a| && r == a[..|r|] && AllWhite(a[|r|..])
    ensures i + |r| <= |s| && s[i..i + |r|] == r
    ensures AllWhite(s[..i]) && AllWhite(s[i + |r|..])
  {
    i := |s| - |a|;
    SliceOfSuffix(s, i, a, |r|);
  }

  /** `trim` keeps a contiguous middle part of `s` with white space only
      around it and no white space at either of its ends. */
  lemma TrimShape(s: string) returns (i: nat)
    ensures Trim(s) == "" || (!IsWhite(Trim(s)[0]) && !IsWhite(Trim(s)[|Trim(s)| - 1]))
    ensures i + |Trim(s)| <= |s| && s[i..i + |Trim(s)|] == Trim(s)
    ensures AllWhite(s[..i]) && AllWhite(s[i + |Trim(s)|..])
  {
    TrimEnds(s);
    i := PeelShape(s, TrimStart(s), Trim(s));
  }

  /** `s.trim() === ""` exactly when `s` is all white space. */
  lemma TrimEmptyIffAllWhite(s: string)
    ensures Trim(s) == "" <==> AllWhite(s)
  {
    var a := TrimStart(s);
    if Trim(s) == "" {
      assert a[0..] == a;
      assert a == "";
      assert s[..|s|] == s;
    }
  }

  /** Trimming twice is trimming once. */
  lemma TrimIdempotent(s: string)
    ensures Trim(Trim(s)) == Trim(s)
  {
    var i := TrimShape(s);
  }
}
