/**
 * The JavaScript string built-ins the chat bot relies on, over Dafny strings
 * (sequences of Unicode scalar values):
 *  - `s.includes(p)`                       — Contains
 *  - `s.replaceAll(p, rep)` for a literal p — ReplaceAll (left to right, non-overlapping)
 *  - `s.trim()`                            — Trim
 *  - `s.split(p)` and `pieces.join(sep)`    — Split and Join, used to characterise ReplaceAll
 */
module JsString {

  /** True for the characters `String.prototype.trim` removes: ECMAScript
      WhiteSpace (TAB, VT, FF, ZWNBSP and every space separator) and
      LineTerminator (LF, CR, LS, PS). */
  predicate IsWhitespace(c: char)
  {
    c == '\t' || c == '\n' || c == '\U{000B}' || c == '\U{000C}' || c == '\r' ||
    c == ' ' || c == '\U{00A0}' || c == '\U{1680}' ||
    ('\U{2000}' <= c <= '\U{200A}') ||
    c == '\U{2028}' || c == '\U{2029}' || c == '\U{202F}' || c == '\U{205F}' ||
    c == '\U{3000}' || c == '\U{FEFF}'
  }

  predicate AllWhitespace(s: string)
  {
    forall k :: 0 <= k < |s| ==> IsWhitespace(s[k])
  }

  /** A string with no whitespace at either end. */
  predicate Trimmed(s: string)
  {
    s == [] || (!IsWhitespace(s[0]) && !IsWhitespace(s[|s| - 1]))
  }

  // ---------------------------------------------------------------------------
  // includes

  /** `s.includes(p)`: some window of `s` equals `p` (the empty pattern is in every string). */
  predicate Contains(s: string, p: string)
    decreases |s|
  {
    |p| <= |s| && (s[..|p|] == p || Contains(s[1..], p))
  }

  /** `p` occurs in `s` starting at index i. */
  predicate OccursAt(s: string, p: string, i: int)
  {
    0 <= i && i + |p| <= |s| && s[i..i + |p|] == p
  }

  /** Moving one character into the string moves each occurrence one index left. */
  lemma OccursShift(s: string, p: string, i: int)
    requires i > 0 && |s| > 0
    ensures OccursAt(s, p, i) <==> OccursAt(s[1..], p, i - 1)
  {
    if i + |p| <= |s| {
      assert s[i..i + |p|] == s[1..][i - 1..i - 1 + |p|];
    }
  }

  /** Contains agrees with the positional reading: p occurs at some index of s. */
  lemma {:induction false} ContainsAt(s: string, p: string)
    ensures Contains(s, p) <==> exists i :: OccursAt(s, p, i)
    decreases |s|
  {
    if |p| > |s| {
      assert forall i :: !OccursAt(s, p, i);
    } else if s[..|p|] == p {
      assert OccursAt(s, p, 0);
    } else {
      ContainsAt(s[1..], p);
      forall i | i > 0 ensures OccursAt(s, p, i) <==> OccursAt(s[1..], p, i - 1) {
        OccursShift(s, p, i);
      }
      assert !OccursAt(s, p, 0);
      if Contains(s[1..], p) {
        var j :| OccursAt(s[1..], p, j);
        assert OccursAt(s, p, j + 1);
      }
    }
  }

  /** Witness form: a string with `p` at index i contains `p`. */
  lemma ContainsWitness(s: string, p: string, i: nat)
    requires OccursAt(s, p, i)
    ensures Contains(s, p)
  {
    ContainsAt(s, p);
  }

  // ---------------------------------------------------------------------------
  // trim

  /** The number of whitespace characters `s` starts with. */
  function LeadingWhitespace(s: string): (n: nat)
    ensures n <= |s| && AllWhitespace(s[..n])
    ensures n == |s| || !IsWhitespace(s[n])
    decreases |s|
  {
    if |s| > 0 && IsWhitespace(s[0]) then
      var m := LeadingWhitespace(s[1..]);
      assert forall k :: 0 <= k < m ==> s[..m + 1][k + 1] == s[1..][..m][k];
      m + 1
    else 0
  }

  /** `s.trimStart()`: drops the leading whitespace. */
  function TrimStart(s: string): (r: string)
    ensures |r| <= |s| && r == s[|s| - |r|..]
    ensures AllWhitespace(s[..|s| - |r|])
    ensures r == [] || !IsWhitespace(r[0])
  {
    s[LeadingWhitespace(s)..]
  }

  /** The length `s` has once its trailing whitespace is dropped. */
  function TrimmedLength(s: string): (n: nat)
    ensures n <= |s| && AllWhitespace(s[n..])
    ensures n == 0 || !IsWhitespace(s[n - 1])
    decreases |s|
  {
    if |s| > 0 && IsWhitespace(s[|s| - 1]) then
      var m := TrimmedLength(s[..|s| - 1]);
      assert forall k :: 0 <= k < |s| - 1 - m ==> s[m..][k] == s[..|s| - 1][m..][k];
      m
    else |s|
  }

  /** `s.trimEnd()`: drops the trailing whitespace. */
  function TrimEnd(s: string): (r: string)
    ensures |r| <= |s| && r == s[..|r|]
    ensures AllWhitespace(s[|r|..])
    ensures r == [] || !IsWhitespace(r[|r| - 1])
  {
    s[..TrimmedLength(s)]
  }

  /** `r` is the infix of `s` at index i and only whitespace surrounds it. */
  predicate InfixBetweenWhitespace(s: string, r: string, i: int)
  {
    0 <= i && i + |r| <= |s| && s[i..i + |r|] == r && AllWhitespace(s[..i]) && AllWhitespace(s[i + |r|..])
  }

  /** `s.trim()`: the infix of `s` left when whitespace is removed from both ends. */
  function Trim(s: string): (r: string)
    ensures Trimmed(r)
    ensures exists i :: InfixBetweenWhitespace(s, r, i)
  {
    var a := TrimStart(s);
    InfixOfCuts(s, a, TrimEnd(a));
    TrimEnd(a)
  }

  /** A whitespace prefix cut from `s`, then a whitespace suffix cut from the rest,
      leaves an infix with only whitespace around it. */
  lemma InfixOfCuts(s: string, a: string, r: string)
    requires |a| <= |s| && a == s[|s| - |a|..] && AllWhitespace(s[..|s| - |a|])
    requires |r| <= |a| && r == a[..|r|] && AllWhitespace(a[|r|..])
    ensures InfixBetweenWhitespace(s, r, |s| - |a|)
  {
    var i := |s| - |a|;
    assert s[i..i + |r|] == a[..|r|];
    assert s[i + |r|..] == a[|r|..];
  }



  /** TrimStart removes exactly a whitespace prefix in front of a non-blank start. */
  lemma {:induction false} TrimStartOf(a: string, r: string)
    requires AllWhitespace(a)
    requires r == [] || !IsWhitespace(r[0])
    ensures TrimStart(a + r) == r
    decreases |a|
  {
    if a != [] {
      assert (a + r)[1..] == a[1..] + r;
      TrimStartOf(a[1..], r);
    }
  }

  /** TrimEnd removes exactly a whitespace suffix behind a non-blank end. */
  lemma {:induction false} TrimEndOf(r: string, b: string)
    requires AllWhitespace(b)
    requires r == [] || !IsWhitespace(r[|r| - 1])
    ensures TrimEnd(r + b) == r
    decreases |b|
  {
    if b != [] {
      assert (r + b)[..|r + b| - 1] == r + b[..|b| - 1];
      TrimEndOf(r, b[..|b| - 1]);
    }
  }

  /** Trim has exactly one possible result: any trimmed infix that leaves only
      whitespace around it is Trim's result. */
  lemma TrimUnique(s: string, i: nat, r: string)
    requires InfixBetweenWhitespace(s, r, i)
    requires Trimmed(r)
    ensures Trim(s) == r
  {
    var a, b := s[..i], s[i + |r|..];
    assert s == a + r + b;
    if r == [] {
      assert AllWhitespace(a + b);
      TrimStartOf(a + b, []);
      assert a + b + [] == s;
    } else {
      assert a + (r + b) == s;
      TrimStartOf(a, r + b);
      TrimEndOf(r, b);
    }
  }

  /** Trimming is idempotent. */
  lemma TrimIdempotent(s: string)
    ensures Trim(Trim(s)) == Trim(s)
  {
    TrimOfTrimmed(Trim(s));
  }

  /** A string without whitespace at its ends is its own trim. */
  lemma TrimOfTrimmed(t: string)
    requires Trimmed(t)
    ensures Trim(t) == t
  {
    assert t[0..0 + |t|] == t && t[..0] == [] && t[|t|..] == [];
    TrimUnique(t, 0, t);
  }

  // ---------------------------------------------------------------------------
  // split, join and replaceAll (a non-empty literal pattern)

  /** `s.split(p)`: the pieces between the left-to-right, non-overlapping
      occurrences of `p`; the first piece is a prefix of `s`. */
  function Split(s: string, p: string): (r: seq<string>)
    requires |p| > 0
    ensures |r| >= 1 && |r[0]| <= |s| && r[0] == s[..|r[0]|]
    decreases |s|
  {
    if |s| < |p| then [s]
    else if s[..|p|] == p then [[]] + Split(s[|p|..], p)
    else
      var t := Split(s[1..], p);
      [[s[0]] + t[0]] + t[1..]
  }

  /** `pieces.join(sep)`. */
  function Join(pieces: seq<string>, sep: string): string
    requires |pieces| >= 1
    decreases |pieces|
  {
    if |pieces| == 1 then pieces[0] else pieces[0] + sep + Join(pieces[1..], sep)
  }

  /** `s.replaceAll(p, rep)` for a literal pattern and a replacement without `$` patterns:
      scan left to right, replace each occurrence and continue after it. */
  function ReplaceAll(s: string, p: string, rep: string): string
    requires |p| > 0
    decreases |s|
  {
    if |s| < |p| then s
    else if s[..|p|] == p then rep + ReplaceAll(s[|p|..], p, rep)
    else [s[0]] + ReplaceAll(s[1..], p, rep)
  }

  lemma JoinPrependHead(x: string, pieces: seq<string>, sep: string)
    requires |pieces| >= 1
    ensures Join([x + pieces[0]] + pieces[1..], sep) == x + Join(pieces, sep)
  {
    var q := [x + pieces[0]] + pieces[1..];
    assert q[1..] == pieces[1..];
  }

  /** replaceAll is split followed by join with the replacement. */
  lemma {:induction false} ReplaceAllIsJoinOfSplit(s: string, p: string, rep: string)
    requires |p| > 0
    ensures ReplaceAll(s, p, rep) == Join(Split(s, p), rep)
    decreases |s|
  {
    if |s| < |p| {
    } else if s[..|p|] == p {
      ReplaceAllIsJoinOfSplit(s[|p|..], p, rep);
      var q := [[]] + Split(s[|p|..], p);
      assert q[1..] == Split(s[|p|..], p);
    } else {
      ReplaceAllIsJoinOfSplit(s[1..], p, rep);
      var t := Split(s[1..], p);
      JoinPrependHead([s[0]], t, rep);
    }
  }

  /** Replacing every occurrence of p by p itself changes nothing. */
  lemma {:induction false} ReplaceAllBySelf(s: string, p: string)
    requires |p| > 0
    ensures ReplaceAll(s, p, p) == s
    decreases |s|
  {
    if |s| < |p| {
    } else if s[..|p|] == p {
      ReplaceAllBySelf(s[|p|..], p);
    } else {
      ReplaceAllBySelf(s[1..], p);
    }
  }

  /** Round trip: joining the pieces of a split with the separator restores the string. */
  lemma JoinSplit(s: string, p: string)
    requires |p| > 0
    ensures Join(Split(s, p), p) == s
  {
    ReplaceAllIsJoinOfSplit(s, p, p);
    ReplaceAllBySelf(s, p);
  }

  /** No piece of a split contains the separator. */
  lemma {:induction false} SplitPiecesFree(s: string, p: string)
    requires |p| > 0
    ensures forall k :: 0 <= k < |Split(s, p)| ==> !Contains(Split(s, p)[k], p)
    decreases |s|
  {
    var r := Split(s, p);
    if |s| < |p| {
    } else if s[..|p|] == p {
      SplitPiecesFree(s[|p|..], p);
      forall k | 0 <= k < |r| ensures !Contains(r[k], p) {
        if k > 0 { assert r[k] == Split(s[|p|..], p)[k - 1]; }
      }
    } else {
      var t := Split(s[1..], p);
      SplitPiecesFree(s[1..], p);
      forall k | 0 <= k < |r| ensures !Contains(r[k], p) {
        if k > 0 {
          assert r[k] == t[k];
        } else {
          var x := [s[0]] + t[0];
          assert x[1..] == t[0];
          assert |p| <= |x| ==> x[..|p|] == s[..|p|];
        }
      }
    }
  }

  /** split cuts at the leftmost occurrence first: the first piece runs up to the
      first occurrence of p (or is all of s when there is none), and the remaining
      pieces are the split of what follows that occurrence. */
  lemma {:induction false} SplitFirstCut(s: string, p: string)
    requires |p| > 0
    ensures var r := Split(s, p);
      (forall i :: 0 <= i < |r[0]| ==> !OccursAt(s, p, i)) &&
      (|r| == 1 ==> r[0] == s && forall i :: !OccursAt(s, p, i)) &&
      (|r| > 1 ==> OccursAt(s, p, |r[0]|) && r[1..] == Split(s[|r[0]| + |p|..], p))
    decreases |s|
  {
    var r := Split(s, p);
    if |s| < |p| {
    } else if s[..|p|] == p {
      assert OccursAt(s, p, 0);
    } else {
      var t := Split(s[1..], p);
      SplitFirstCut(s[1..], p);
      assert r[0] == [s[0]] + t[0] && r[1..] == t[1..];
      forall i | 0 <= i < |r[0]| ensures !OccursAt(s, p, i) {
        if i > 0 { OccursShift(s, p, i); }
      }
      if |r| == 1 {
        assert r[0] == s by { assert s == [s[0]] + s[1..]; }
        forall i ensures !OccursAt(s, p, i) {
          if i > 0 { OccursShift(s, p, i); }
        }
      } else {
        OccursShift(s, p, |r[0]|);
        assert s[1..][|t[0]| + |p|..] == s[|r[0]| + |p|..];
      }
    }
  }

  /** A string without separator character c splits into itself alone. */
  lemma {:induction false} SplitWithoutSeparator(a: string, c: char)
    requires c !in a
    ensures Split(a, [c]) == [a]
    decreases |a|
  {
    if |a| >= 1 {
      assert a[..1] != [c] by { assert a[..1][0] == a[0]; }
      SplitWithoutSeparator(a[1..], c);
      assert [a[0]] + a[1..] == a;
    }
  }

  /** Splitting at a first separator character c. */
  lemma {:induction false} SplitAtFirstSeparator(a: string, c: char, b: string)
    requires c !in a
    ensures Split(a + [c] + b, [c]) == [a] + Split(b, [c])
    decreases |a|
  {
    var s := a + [c] + b;
    if a == [] {
      assert s[..1] == [c] && s[1..] == b;
    } else {
      assert s[..1] != [c] by { assert s[..1][0] == a[0]; }
      assert s[1..] == a[1..] + [c] + b;
      SplitAtFirstSeparator(a[1..], c, b);
      assert [a[0]] + a[1..] == a;
    }
  }

  /** The pieces of a split at one character do not hold that character. */
  lemma SplitPiecesLackSeparator(s: string, c: char)
    ensures forall k :: 0 <= k < |Split(s, [c])| ==> c !in Split(s, [c])[k]
  {
    SplitPiecesFree(s, [c]);
    forall k | 0 <= k < |Split(s, [c])| ensures c !in Split(s, [c])[k] {
      var x := Split(s, [c])[k];
      if c in x {
        var i :| 0 <= i < |x| && x[i] == c;
        assert OccursAt(x, [c], i);
        ContainsWitness(x, [c], i);
      }
    }
  }
}
