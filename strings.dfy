/** JavaScript string operations the core relies on (`trim`, `includes`, `startsWith`,
    `split`, `join`, `toLowerCase` and the greedy pattern `/\{[\s\S]*\}/`), over `seq<char>`. */
module Strings {
  import opened Wrappers
  import opened Seqs

  /** ECMAScript WhiteSpace and LineTerminator code points: what `trim` strips and `\s` matches. */
  predicate IsJsWhitespace(c: char)
  {
    c == '\t' || c == '\n' || c == '\U{000B}' || c == '\U{000C}' || c == '\r' || c == ' '
    || c == '\U{00A0}' || c == '\U{1680}' || ('\U{2000}' <= c <= '\U{200A}')
    || c == '\U{2028}' || c == '\U{2029}' || c == '\U{202F}' || c == '\U{205F}'
    || c == '\U{3000}' || c == '\U{FEFF}'
  }

  /** The characters a regular expression's `.` does not match. */
  predicate IsLineTerminator(c: char)
  {
    c == '\n' || c == '\r' || c == '\U{2028}' || c == '\U{2029}'
  }

  predicate AllWhitespace(s: string)
  {
    forall i :: 0 <= i < |s| ==> IsJsWhitespace(s[i])
  }

  function TrimStart(s: string): (r: string)
    ensures |r| <= |s| && r == s[|s| - |r|..]
    ensures AllWhitespace(s[..|s| - |r|])
    ensures r == [] || !IsJsWhitespace(r[0])
  {
    if s != [] && IsJsWhitespace(s[0]) then TrimStart(s[1..]) else s
  }

  function TrimEnd(s: string): (r: string)
    ensures |r| <= |s| && r == s[..|r|]
    ensures AllWhitespace(s[|r|..])
    ensures r == [] || !IsJsWhitespace(r[|r| - 1])
  {
    if s != [] && IsJsWhitespace(s[|s| - 1]) then TrimEnd(s[..|s| - 1]) else s
  }

  /** `trim`: the slice of `s` left after removing whitespace at both ends. */
  function Trim(s: string): (r: string)
    ensures |r| <= |s|
    ensures r == [] || (!IsJsWhitespace(r[0]) && !IsJsWhitespace(r[|r| - 1]))
    ensures r == [] <==> AllWhitespace(s)
  {
    TrimSlice(s, TrimStart(s), TrimEnd(TrimStart(s)));
    TrimEnd(TrimStart(s))
  }

  /** The trim is a slice of `s` with only whitespace around it. */
  lemma TrimShape(s: string)
    ensures exists i, j :: 0 <= i <= j <= |s| && Trim(s) == s[i..j] && AllWhitespace(s[..i]) && AllWhitespace(s[j..])
  {
    TrimSlice(s, TrimStart(s), Trim(s));
  }

  /** Where the two trims cut `s`. */
  lemma TrimSlice(s: string, t: string, r: string)
    requires |t| <= |s| && t == s[|s| - |t|..] && AllWhitespace(s[..|s| - |t|]) && (t == [] || !IsJsWhitespace(t[0]))
    requires |r| <= |t| && r == t[..|r|] && AllWhitespace(t[|r|..]) && (r == [] || !IsJsWhitespace(r[|r| - 1]))
    ensures exists i, j :: 0 <= i <= j <= |s| && r == s[i..j] && AllWhitespace(s[..i]) && AllWhitespace(s[j..])
    ensures r == [] || (!IsJsWhitespace(r[0]) && !IsJsWhitespace(r[|r| - 1]))
    ensures r == [] <==> AllWhitespace(s)
  {
    var i := |s| - |t|;
    SuffixPrefixCuts(s, t, r);
    assert AllWhitespace(s[..i]) && AllWhitespace(s[i + |r|..]);
    assert 0 <= i <= i + |r| <= |s| && r == s[i..i + |r|];
    if r == [] {
      assert t[|r|..] == t;
      WhitespaceConcat(s[..i], t);
    } else {
      assert r[0] == t[0];
      WhitespaceAt(s, i + |r| - 1);
    }
  }

  /** A prefix `r` of a suffix `t` of `s` is the slice of `s` between the two cuts. */
  lemma SuffixPrefixCuts(s: string, t: string, r: string)
    requires |t| <= |s| && t == s[|s| - |t|..] && |r| <= |t| && r == t[..|r|]
    ensures r == s[|s| - |t|..|s| - |t| + |r|] && s[|s| - |t| + |r|..] == t[|r|..]
    ensures s == s[..|s| - |t|] + t
  {
  }

  lemma WhitespaceConcat(a: string, b: string)
    requires AllWhitespace(a) && AllWhitespace(b)
    ensures AllWhitespace(a + b)
  {
    forall k | 0 <= k < |a + b| ensures IsJsWhitespace((a + b)[k]) {
      if k < |a| {
        assert (a + b)[k] == a[k];
      } else {
        assert (a + b)[k] == b[k - |a|];
      }
    }
  }

  lemma WhitespaceAt(s: string, k: nat)
    requires k < |s|
    ensures AllWhitespace(s) ==> IsJsWhitespace(s[k])
  {
  }

  /** Trimming a trimmed string changes nothing. */
  lemma TrimIdempotent(s: string)
    ensures Trim(Trim(s)) == Trim(s)
  {
    var t := Trim(s);
    if t != [] {
      assert TrimStart(t) == t;
      assert TrimEnd(t) == t;
    }
  }

  predicate StartsWith(s: string, prefix: string)
  {
    |prefix| <= |s| && s[..|prefix|] == prefix
  }

  /** `sub` occurs in `s` starting at position `j`. */
  predicate OccursAt(s: string, sub: string, j: int)
  {
    0 <= j && j + |sub| <= |s| && s[j..j + |sub|] == sub
  }

  /** `indexOf`: the position of the first occurrence of `sub` in `s`. */
  function IndexOf(s: string, sub: string): (r: Option<nat>)
    ensures r.Some? ==> OccursAt(s, sub, r.value) && forall j :: 0 <= j < r.value ==> !OccursAt(s, sub, j)
    ensures r.None? ==> forall j :: !OccursAt(s, sub, j)
    decreases |s|
  {
    if |sub| > |s| then None
    else if s[..|sub|] == sub then Some(0)
    else
      assert forall j :: 1 <= j ==> OccursAt(s, sub, j) == OccursAt(s[1..], sub, j - 1) by {
        forall j | 1 <= j ensures OccursAt(s, sub, j) == OccursAt(s[1..], sub, j - 1) {
          if j + |sub| <= |s| {
            assert s[1..][j - 1..j - 1 + |sub|] == s[j..j + |sub|];
          }
        }
      }
      assert !OccursAt(s, sub, 0);
      match IndexOf(s[1..], sub)
      case None => None
      case Some(i) => Some(i + 1)
  }

  /** `includes`. */
  predicate Contains(s: string, sub: string)
  {
    IndexOf(s, sub).Some?
  }

  lemma ContainsAt(s: string, sub: string, i: nat)
    requires i + |sub| <= |s| && s[i..i + |sub|] == sub
    ensures Contains(s, sub)
  {
    assert OccursAt(s, sub, i);
  }

  lemma StartsThenContains(h: string, rest: string, sub: string)
    requires |sub| <= |h| && h[..|sub|] == sub
    ensures Contains(h + rest, sub)
  {
    assert (h + rest)[..|sub|] == sub;
    ContainsAt(h + rest, sub, 0);
  }

  lemma ContainsLeft(a: string, b: string, sub: string)
    requires Contains(a, sub)
    ensures Contains(a + b, sub)
  {
    var i := IndexOf(a, sub).value;
    assert (a + b)[i..i + |sub|] == a[i..i + |sub|];
    ContainsAt(a + b, sub, i);
  }

  lemma ContainsRight(a: string, b: string, sub: string)
    requires Contains(b, sub)
    ensures Contains(a + b, sub)
  {
    var i := IndexOf(b, sub).value;
    assert (a + b)[|a| + i..|a| + i + |sub|] == b[i..i + |sub|];
    ContainsAt(a + b, sub, |a| + i);
  }

  lemma ContainsMiddle(a: string, sub: string, b: string)
    ensures Contains(a + sub + b, sub)
  {
    assert (a + sub + b)[|a|..|a| + |sub|] == sub;
    ContainsAt(a + sub + b, sub, |a|);
  }

  lemma ContainsPrefix(sub: string, b: string)
    ensures Contains(sub + b, sub)
  {
    assert (sub + b)[..|sub|] == sub;
    ContainsAt(sub + b, sub, 0);
  }

  /** `join(sep)`. */
  function Join(xs: seq<string>, sep: string): string
  {
    if |xs| == 0 then ""
    else if |xs| == 1 then xs[0]
    else xs[0] + sep + Join(xs[1..], sep)
  }

  /** Where the `i`-th piece starts in `Join(xs, sep)`: after every earlier piece and its separator. */
  function JoinOffset(xs: seq<string>, sep: string, i: nat): nat
    requires i < |xs|
  {
    if i == 0 then 0 else JoinOffset(xs, sep, i - 1) + |xs[i - 1]| + |sep|
  }

  /** Measured from the second piece, the offsets are those of the joined tail. */
  lemma {:induction false} JoinOffsetTail(xs: seq<string>, sep: string, i: nat)
    requires 0 < i < |xs|
    ensures JoinOffset(xs, sep, i) == |xs[0]| + |sep| + JoinOffset(xs[1..], sep, i - 1)
  {
    if i > 1 {
      JoinOffsetTail(xs, sep, i - 1);
    }
  }

  lemma OccursAfter(a: string, t: string, sub: string, j: int)
    requires OccursAt(t, sub, j)
    ensures OccursAt(a + t, sub, |a| + j)
  {
    assert (a + t)[|a| + j..|a| + j + |sub|] == t[j..j + |sub|];
  }

  /** The first piece of a join, and what follows it. */
  lemma JoinFirst(xs: seq<string>, sep: string)
    requires |xs| > 0
    ensures OccursAt(Join(xs, sep), xs[0], 0)
    ensures |xs| > 1 ==> OccursAt(Join(xs, sep), sep, |xs[0]|)
    ensures |xs| == 1 ==> |Join(xs, sep)| == |xs[0]|
  {
    if |xs| > 1 {
      var j := Join(xs, sep);
      assert j == xs[0] + sep + Join(xs[1..], sep);
      assert j[..|xs[0]|] == xs[0];
      assert j[|xs[0]|..|xs[0]| + |sep|] == sep;
    }
  }

  /** The layout of a join: every piece at its offset, a separator after each piece but the
      last, and nothing after the last piece. */
  lemma {:induction false} JoinLayout(xs: seq<string>, sep: string, i: nat)
    requires i < |xs|
    ensures OccursAt(Join(xs, sep), xs[i], JoinOffset(xs, sep, i))
    ensures i + 1 < |xs| ==> OccursAt(Join(xs, sep), sep, JoinOffset(xs, sep, i) + |xs[i]|)
    ensures i + 1 == |xs| ==> |Join(xs, sep)| == JoinOffset(xs, sep, i) + |xs[i]|
  {
    if i == 0 {
      JoinFirst(xs, sep);
    } else {
      var a := xs[0] + sep;
      var t := Join(xs[1..], sep);
      assert Join(xs, sep) == a + t;
      JoinOffsetTail(xs, sep, i);
      JoinLayout(xs[1..], sep, i - 1);
      assert xs[1..][i - 1] == xs[i];
      var at := JoinOffset(xs[1..], sep, i - 1);
      OccursAfter(a, t, xs[i], at);
      if i + 1 < |xs| {
        OccursAfter(a, t, sep, at + |xs[i]|);
      }
    }
  }

  /** `split(sep)` for a non-empty separator: the pieces between non-overlapping occurrences,
      scanned left to right; there is always at least one piece. */
  function Split(s: string, sep: string): (r: seq<string>)
    requires |sep| > 0
    ensures |r| >= 1
    decreases |s|
  {
    match IndexOf(s, sep)
    case None => [s]
    case Some(i) => [s[..i]] + Split(s[i + |sep|..], sep)
  }

  /** Joining the pieces of a split with the same separator gives the string back. */
  lemma {:induction false} JoinSplit(s: string, sep: string)
    requires |sep| > 0
    ensures Join(Split(s, sep), sep) == s
    decreases |s|
  {
    var r := IndexOf(s, sep);
    if r.Some? {
      var i := r.value;
      var rest := s[i + |sep|..];
      var t := Split(rest, sep);
      assert Split(s, sep) == [s[..i]] + t;
      JoinSplit(rest, sep);
      assert ([s[..i]] + t)[1..] == t;
      assert Join([s[..i]] + t, sep) == s[..i] + sep + Join(t, sep);
      assert s[i..i + |sep|] == sep;
      assert s == s[..i] + s[i..i + |sep|] + rest;
    }
  }

  /** No proper prefix of `sep` is also a suffix of it, so occurrences can never straddle a piece
      and the following separator.  ", " and every one-character separator have this property. */
  predicate Unbordered(sep: string)
  {
    forall k :: 0 < k < |sep| ==> sep[..k] != sep[|sep| - k..]
  }

  /** In `x + sep + rest`, no occurrence of `sep` starts inside `x`. */
  lemma NoOccurrenceInPiece(x: string, sep: string, rest: string, j: int)
    requires |sep| > 0 && Unbordered(sep) && !Contains(x, sep) && 0 <= j < |x|
    ensures !OccursAt(x + sep + rest, sep, j)
  {
    var s := x + sep + rest;
    if j + |sep| <= |x| {
      assert s[j..j + |sep|] == x[j..j + |sep|];
      assert !OccursAt(x, sep, j);
    } else {
      var k := j + |sep| - |x|;
      var w := s[j..j + |sep|];
      assert s[|x|..j + |sep|] == sep[..k];
      assert w[|x| - j..] == s[|x|..j + |sep|];
      assert 0 < k < |sep| && |sep| - k == |x| - j && sep[..k] != sep[|sep| - k..];
      assert w[|x| - j..] != sep[|x| - j..];
    }
  }

  lemma {:induction false} FirstSeparatorAfterPiece(x: string, sep: string, rest: string)
    requires |sep| > 0 && Unbordered(sep) && !Contains(x, sep)
    ensures IndexOf(x + sep + rest, sep) == Some(|x|)
  {
    var s := x + sep + rest;
    assert s[|x|..|x| + |sep|] == sep;
    assert OccursAt(s, sep, |x|);
    forall j | 0 <= j < |x| ensures !OccursAt(s, sep, j) {
      NoOccurrenceInPiece(x, sep, rest, j);
    }
  }

  /** Splitting a join recovers the pieces, provided no piece contains the separator. */
  lemma {:induction false} SplitJoin(xs: seq<string>, sep: string)
    requires |sep| > 0 && Unbordered(sep) && |xs| >= 1
    requires forall i :: 0 <= i < |xs| ==> !Contains(xs[i], sep)
    ensures Split(Join(xs, sep), sep) == xs
  {
    if |xs| == 1 {
      assert Join(xs, sep) == xs[0];
    } else {
      SplitAfterPiece(xs[0], sep, Join(xs[1..], sep));
      SplitJoin(xs[1..], sep);
      assert xs == [xs[0]] + xs[1..];
    }
  }

  /** A piece without the separator, then the separator, splits off as the first piece. */
  lemma SplitAfterPiece(x: string, sep: string, rest: string)
    requires |sep| > 0 && Unbordered(sep) && !Contains(x, sep)
    ensures Split(x + sep + rest, sep) == [x] + Split(rest, sep)
  {
    FirstSeparatorAfterPiece(x, sep, rest);
    var s := x + sep + rest;
    assert s[..|x|] == x;
    assert s[|x| + |sep|..] == rest;
  }

  function ToLowerChar(c: char): char
  {
    if 'A' <= c <= 'Z' then (c as int + 32) as char else c
  }

  /** `toLowerCase`, for the ASCII letters. */
  function ToLowerAscii(s: string): (r: string)
    ensures |r| == |s| && forall i :: 0 <= i < |s| ==> r[i] == ToLowerChar(s[i])
  {
    Map(s, ToLowerChar)
  }

  /** The last position holding `c`. */
  function LastIndexOfChar(s: string, c: char): (r: Option<nat>)
    ensures r.Some? ==> r.value < |s| && s[r.value] == c && forall j :: r.value < j < |s| ==> s[j] != c
    ensures r.None? <==> forall j :: 0 <= j < |s| ==> s[j] != c
  {
    if s == [] then None
    else if s[|s| - 1] == c then Some(|s| - 1)
    else LastIndexOfChar(s[..|s| - 1], c)
  }

  function IsOpenBrace(c: char): bool { c == '{' }

  /** The match of `/\{[\s\S]*\}/`: from the first '{' to the last '}' after it, if any. */
  function BraceSpan(s: string): (r: Option<string>)
    ensures r.Some? ==> |r.value| >= 2 && r.value[0] == '{' && r.value[|r.value| - 1] == '}'
  {
    match FirstIndex(s, IsOpenBrace)
    case None => None
    case Some(i) =>
      match LastIndexOfChar(s, '}')
      case None => None
      case Some(j) => if i < j then Some(s[i..j + 1]) else None
  }

  /** There is a match exactly when some '{' has a '}' after it, and the match is the greedy one:
      it opens at the first '{' and closes at the last '}'. */
  lemma BraceSpanIsGreedy(s: string)
    ensures BraceSpan(s).None? <==> forall a, b :: 0 <= a < b < |s| ==> !(s[a] == '{' && s[b] == '}')
    ensures BraceSpan(s).Some? ==>
              exists i, j :: 0 <= i < j < |s| && BraceSpan(s).value == s[i..j + 1] && s[i] == '{' && s[j] == '}'
                             && (forall k :: 0 <= k < i ==> s[k] != '{')
                             && (forall k :: j < k < |s| ==> s[k] != '}')
  {
    var first := FirstIndex(s, IsOpenBrace);
    var last := LastIndexOfChar(s, '}');
    if first.Some? && last.Some? && first.value < last.value {
      var i, j := first.value, last.value;
      assert BraceSpan(s).value == s[i..j + 1] && s[i] == '{' && s[j] == '}';
    } else {
      forall a, b | 0 <= a < b < |s| && s[a] == '{'
        ensures s[b] != '}'
      {
        assert IsOpenBrace(s[a]);
      }
    }
  }
}
