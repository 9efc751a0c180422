/**
 * The JavaScript string primitives the bot relies on, on `string` = `seq<char>`:
 * `includes` (case-sensitive substring search), `trim` (the ECMAScript set of
 * white-space and line-terminator characters), `split` on one separator
 * character together with its inverse `join`, and `String(n)` for naturals.
 */
module Strings {

  /** `s.includes(sub)`: case-sensitive search for `sub` anywhere in `s`. */
  predicate Contains(s: string, sub: string)
  {
    ContainsFrom(s, sub, 0)
  }

  /** The search from position `i` on: does `sub` start at `i` or at a later position? */
  predicate ContainsFrom(s: string, sub: string, i: nat)
    decreases |s| - i
  {
    if i + |sub| > |s| then false
    else if s[i..i + |sub|] == sub then true
    else ContainsFrom(s, sub, i + 1)
  }

  /** Occurrence of `sub` at position `i` of `s`. */
  ghost predicate OccursAt(s: string, sub: string, i: int)
  {
    0 <= i && i + |sub| <= |s| && s[i..i + |sub|] == sub
  }

  /** The search from `i` finds `sub` exactly when it occurs at `i` or later. */
  lemma {:induction false} ContainsFromIffOccurs(s: string, sub: string, i: nat)
    ensures ContainsFrom(s, sub, i) <==> exists j :: i <= j && OccursAt(s, sub, j)
    decreases |s| - i
  {
    if i + |sub| <= |s| {
      if s[i..i + |sub|] == sub {
        assert OccursAt(s, sub, i);
      } else {
        ContainsFromIffOccurs(s, sub, i + 1);
        if exists j :: i <= j && OccursAt(s, sub, j) {
          var j :| i <= j && OccursAt(s, sub, j);
          assert j != i && i + 1 <= j;
        }
      }
    }
  }

  /** The search finds `sub` exactly when it occurs at some position. */
  lemma ContainsIffOccurs(s: string, sub: string)
    ensures Contains(s, sub) <==> exists i :: OccursAt(s, sub, i)
  {
    ContainsFromIffOccurs(s, sub, 0);
  }

  /** What a string contains, any string around it contains too. */
  lemma ContainsWithin(x: string, s: string, y: string, sub: string)
    requires Contains(s, sub)
    ensures Contains(x + s + y, sub)
  {
    ContainsIffOccurs(s, sub);
    var i :| OccursAt(s, sub, i);
    var t := x + s + y;
    assert t[|x| + i..|x| + i + |sub|] == s[i..i + |sub|];
    assert OccursAt(t, sub, |x| + i);
    ContainsIffOccurs(t, sub);
  }
  /** What a string contains, the string followed by anything contains too. */
  lemma ContainsBefore(s: string, y: string, sub: string)
    requires Contains(s, sub)
    ensures Contains(s + y, sub)
  {
    ContainsWithin([], s, y, sub);
    assert [] + s + y == s + y;
  }


  /** The characters `String.prototype.trim` removes: ECMAScript WhiteSpace and LineTerminator. */
  predicate IsWhitespace(c: char)
  {
    c == '\t' || c == '\n' || c == '\U{000B}' || c == '\U{000C}' || c == '\r' || c == ' '
    || c == '\U{00A0}' || c == '\U{1680}' || ('\U{2000}' <= c <= '\U{200A}')
    || c == '\U{2028}' || c == '\U{2029}' || c == '\U{202F}' || c == '\U{205F}'
    || c == '\U{3000}' || c == '\U{FEFF}'
  }

  /** Neither end of `t` is white space. */
  predicate IsTrimmed(t: string)
  {
    t == [] || (!IsWhitespace(t[0]) && !IsWhitespace(t[|t| - 1]))
  }

  /** Every character of `t` is white space. */
  predicate AllWhitespace(t: string)
  {
    forall i :: 0 <= i < |t| ==> IsWhitespace(t[i])
  }

  /** The first position from `i` on that does not hold white space (`|s|` when there is none). */
  function SkipLeading(s: string, i: nat): (j: nat)
    requires i <= |s|
    ensures i <= j <= |s| && (j == |s| || !IsWhitespace(s[j]))
    decreases |s| - i
  {
    if i < |s| && IsWhitespace(s[i]) then SkipLeading(s, i + 1) else i
  }

  /** The first position from `j` back that follows a character other than white space (0 when there is none). */
  function SkipTrailing(s: string, j: nat): (k: nat)
    requires j <= |s|
    ensures k <= j && (k == 0 || !IsWhitespace(s[k - 1]))
  {
    if j > 0 && IsWhitespace(s[j - 1]) then SkipTrailing(s, j - 1) else j
  }

  /** Every position `SkipLeading` steps over holds white space. */
  lemma {:induction false} SkippedLeading(s: string, i: nat)
    requires i <= |s|
    ensures forall k :: i <= k < SkipLeading(s, i) ==> IsWhitespace(s[k])
    decreases |s| - i
  {
    if i < |s| && IsWhitespace(s[i]) {
      SkippedLeading(s, i + 1);
    }
  }

  /** Every position `SkipTrailing` steps back over holds white space. */
  lemma {:induction false} SkippedTrailing(s: string, j: nat)
    requires j <= |s|
    ensures forall k :: SkipTrailing(s, j) <= k < j ==> IsWhitespace(s[k])
  {
    if j > 0 && IsWhitespace(s[j - 1]) {
      SkippedTrailing(s, j - 1);
    }
  }

  /** Drops the leading white space: the result starts with a non-space or is empty. */
  function TrimStart(s: string): (r: string)
    ensures |r| <= |s|
    ensures r == [] || !IsWhitespace(r[0])
  {
    s[SkipLeading(s, 0)..]
  }

  /** Drops the trailing white space: the result ends with a non-space or is empty. */
  function TrimEnd(s: string): (r: string)
    ensures |r| <= |s|
    ensures r == [] || !IsWhitespace(r[|r| - 1])
  {
    s[..SkipTrailing(s, |s|)]
  }

  /** `TrimStart` removes a white-space prefix and nothing else. */
  lemma TrimStartIsSuffix(s: string)
    ensures var r := TrimStart(s); r == s[|s| - |r|..] && AllWhitespace(s[..|s| - |r|])
  {
    var n := SkipLeading(s, 0);
    SkippedLeading(s, 0);
    assert forall k :: 0 <= k < n ==> s[..n][k] == s[k];
  }

  /** `TrimEnd` removes a white-space suffix and nothing else. */
  lemma TrimEndIsPrefix(s: string)
    ensures var r := TrimEnd(s); r == s[..|r|] && AllWhitespace(s[|r|..])
  {
    var n := SkipTrailing(s, |s|);
    SkippedTrailing(s, |s|);
    assert forall k :: 0 <= k < |s| - n ==> s[n..][k] == s[n + k];
  }

  /** `s.trim()`: `s` without the white space at either end. */
  function Trim(s: string): (r: string)
    ensures IsTrimmed(r)
  {
    var a := TrimStart(s);
    TrimEndIsPrefix(a);
    TrimEnd(a)
  }

  /** What `Trim` removes: it keeps the infix of `s` that starts where the leading white space ends. */
  lemma TrimInfix(s: string)
    ensures var r, i := Trim(s), |s| - |TrimStart(s)|;
            i + |r| <= |s| && r == s[i..i + |r|]
            && AllWhitespace(s[..i]) && AllWhitespace(s[i + |r|..])
  {
    var a := TrimStart(s);
    TrimStartIsSuffix(s);
    TrimEndIsPrefix(a);
    PrefixOfSuffix(s, a, TrimEnd(a));
  }

  /** A prefix `r` of the suffix `a` of `s` is an infix of `s`, and what follows `r` in `a` ends `s`. */
  lemma PrefixOfSuffix(s: string, a: string, r: string)
    requires |r| <= |a| <= |s| && a == s[|s| - |a|..] && r == a[..|r|]
    ensures var i := |s| - |a|; r == s[i..i + |r|] && a[|r|..] == s[i + |r|..]
  {
  }

  /** `Trim` keeps what lies between a white-space prefix and a white-space suffix. */
  lemma TrimSplit(s: string)
    ensures exists w1, w2 :: AllWhitespace(w1) && AllWhitespace(w2) && s == w1 + Trim(s) + w2
  {
    TrimInfix(s);
    var r, i := Trim(s), |s| - |TrimStart(s)|;
    AroundInfix(s, i, r);
    assert AllWhitespace(s[..i]) && AllWhitespace(s[i + |r|..]) && s == s[..i] + r + s[i + |r|..];
  }

  /** A string is the part before an infix, the infix, and the part after it. */
  lemma AroundInfix(s: string, i: nat, r: string)
    requires i + |r| <= |s| && r == s[i..i + |r|]
    ensures s == s[..i] + r + s[i + |r|..]
  {
  }

  /** Trimming an already trimmed string changes nothing. */
  lemma TrimOfTrimmed(t: string)
    requires IsTrimmed(t)
    ensures Trim(t) == t
  {
  }

  /** A string trims to the empty string exactly when it is all white space. */
  lemma TrimEmptyIffBlank(s: string)
    ensures Trim(s) == [] <==> AllWhitespace(s)
  {
    TrimInfix(s);
  }

  /** `s.split(sep)` for a one-character separator: the pieces between separators, in order. */
  function Split(s: string, sep: char): (parts: seq<string>)
    ensures |parts| >= 1
    ensures forall p :: p in parts ==> sep !in p
    decreases |s|
  {
    if |s| == 0 then [""]
    else
      var rest := Split(s[1..], sep);
      if s[0] == sep then [""] + rest
      else [[s[0]] + rest[0]] + rest[1..]
  }

  /** `parts.join(sep)`. */
  function Join(parts: seq<string>, sep: char): string
    decreases |parts|
  {
    if |parts| == 0 then ""
    else if |parts| == 1 then parts[0]
    else parts[0] + [sep] + Join(parts[1..], sep)
  }

  /** Every character of a piece comes from the input, and every non-separator character of the input lies in some piece. */
  lemma {:induction false} SplitPiecesCoverInput(s: string, sep: char)
    ensures forall p, c :: p in Split(s, sep) && c in p ==> c in s
    ensures forall c :: c in s && c != sep ==> exists p :: p in Split(s, sep) && c in p
    decreases |s|
  {
    if |s| > 0 {
      var rest := Split(s[1..], sep);
      SplitPiecesCoverInput(s[1..], sep);
      var parts := Split(s, sep);
      forall p, c | p in parts && c in p
        ensures c in s
      {
        if s[0] != sep && p == [s[0]] + rest[0] && c != s[0] {
          assert rest[0] in rest;
        }
      }
      forall c | c in s && c != sep
        ensures exists p :: p in parts && c in p
      {
        assert s == [s[0]] + s[1..];
        if s[0] != sep {
          if c == s[0] {
            assert parts[0] == [s[0]] + rest[0];
            assert c in parts[0] && parts[0] in parts;
          } else {
            assert c in s[1..];
            var p :| p in rest && c in p;
            if p == rest[0] {
              assert c in parts[0];
            } else {
              assert p in rest[1..];
            }
          }
        } else {
          assert c in s[1..];
          var p :| p in rest && c in p;
          assert p in parts;
        }
      }
    }
  }

  /** Joining the pieces of a split restores the original string. */
  lemma {:induction false} JoinOfSplit(s: string, sep: char)
    ensures Join(Split(s, sep), sep) == s
    decreases |s|
  {
    if |s| > 0 {
      var rest := Split(s[1..], sep);
      JoinOfSplit(s[1..], sep);
      if s[0] == sep {
        assert ([""] + rest)[1..] == rest;
      } else {
        var parts := [[s[0]] + rest[0]] + rest[1..];
        assert parts[1..] == rest[1..];
        if |rest| > 1 {
          assert Join(rest, sep) == rest[0] + [sep] + Join(rest[1..], sep);
        }
        assert s == [s[0]] + s[1..];
      }
    }
  }

  /** A separator-free string splits into itself. */
  lemma {:induction false} SplitOfPlain(p: string, sep: char)
    requires sep !in p
    ensures Split(p, sep) == [p]
    decreases |p|
  {
    if |p| > 0 {
      assert sep !in p[1..];
      SplitOfPlain(p[1..], sep);
      assert [p[0]] + p[1..] == p;
    }
  }

  /** Splitting `p + sep + x` yields `p` followed by the pieces of `x`. */
  lemma {:induction false} SplitAfterPiece(p: string, sep: char, x: string)
    requires sep !in p
    ensures Split(p + [sep] + x, sep) == [p] + Split(x, sep)
    decreases |p|
  {
    var s := p + [sep] + x;
    if |p| == 0 {
      assert s[1..] == x;
    } else {
      assert s[1..] == p[1..] + [sep] + x;
      assert sep !in p[1..];
      SplitAfterPiece(p[1..], sep, x);
      assert [p[0]] + p[1..] == p;
    }
  }

  /** Splitting a join of separator-free pieces gives the pieces back. */
  lemma {:induction false} SplitOfJoin(parts: seq<string>, sep: char)
    requires |parts| >= 1
    requires forall p :: p in parts ==> sep !in p
    ensures Split(Join(parts, sep), sep) == parts
    decreases |parts|
  {
    if |parts| == 1 {
      SplitOfPlain(parts[0], sep);
    } else {
      assert parts[0] in parts;
      SplitAfterPiece(parts[0], sep, Join(parts[1..], sep));
      assert forall p :: p in parts[1..] ==> p in parts;
      SplitOfJoin(parts[1..], sep);
      assert [parts[0]] + parts[1..] == parts;
    }
  }

  /** Joining two non-empty lists of pieces puts one separator between their joins. */
  lemma {:induction false} JoinAppend(a: seq<string>, b: seq<string>, sep: char)
    requires |a| >= 1 && |b| >= 1
    ensures Join(a + b, sep) == Join(a, sep) + [sep] + Join(b, sep)
    decreases |a|
  {
    if |a| == 1 {
      assert (a + b)[1..] == b;
    } else {
      assert (a + b)[1..] == a[1..] + b;
      JoinAppend(a[1..], b, sep);
    }
  }

  /** A separator between two strings separates their pieces. */
  lemma SplitAroundSeparator(a: string, b: string, sep: char)
    ensures Split(a + [sep] + b, sep) == Split(a, sep) + Split(b, sep)
  {
    var pa, pb := Split(a, sep), Split(b, sep);
    JoinOfSplit(a, sep);
    JoinOfSplit(b, sep);
    JoinAppend(pa, pb, sep);
    SplitOfJoin(pa + pb, sep);
  }

  /** The decimal digit character for `d`. */
  function DigitChar(d: nat): (c: char)
    requires d < 10
    ensures '0' <= c <= '9' && c as int - '0' as int == d
  {
    ['0', '1', '2', '3', '4', '5', '6', '7', '8', '9'][d]
  }

  /** The number a string of decimal digits denotes, most significant digit first. */
  function DecimalValue(s: string): nat
    requires forall i :: 0 <= i < |s| ==> '0' <= s[i] <= '9'
    decreases |s|
  {
    if s == [] then 0
    else DecimalValue(s[..|s| - 1]) * 10 + (s[|s| - 1] as int - '0' as int)
  }

  /** `String(n)` for a natural number: its decimal digits without leading zeros, which denote `n`. */
  function NatToString(n: nat): (r: string)
    ensures |r| >= 1 && (forall i :: 0 <= i < |r| ==> '0' <= r[i] <= '9')
    ensures (r[0] == '0') == (n == 0)
    ensures DecimalValue(r) == n
  {
    if n < 10 then [DigitChar(n)]
    else
      var r := NatToString(n / 10) + [DigitChar(n % 10)];
      assert r[..|r| - 1] == NatToString(n / 10);
      r
  }
}
