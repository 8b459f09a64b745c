/** Values and Python string operations shared by every module of the model. */
module Common {

  datatype Option<+T> = None | Some(value: T) {
    function GetOr(default: T): T {
      match this
      case Some(v) => v
      case None => default
    }
  }

  /** Result of a call into code the model cannot see (a language model, a parser):
      either the value it returned, or the exception it raised. */
  datatype Outcome<+T> = Ok(value: T) | Fail

  /** Python's `str.isspace` for one character: the characters `str.strip` and `str.split` treat as blanks. */
  predicate IsSpace(c: char) {
    c == ' ' || ('\t' <= c <= '\r') || ('\U{1c}' <= c <= '\U{1f}') || c == '\U{85}' || c == '\U{a0}'
    || c == '\U{1680}' || ('\U{2000}' <= c <= '\U{200a}') || c == '\U{2028}' || c == '\U{2029}'
    || c == '\U{202f}' || c == '\U{205f}' || c == '\U{3000}'
  }

  /** True when `s` holds only blanks; then `s.strip()` is empty and falsy. */
  predicate Blank(s: string) {
    forall i :: 0 <= i < |s| ==> IsSpace(s[i])
  }

  /** Number of blanks at the head of `s`. */
  function LeadingBlanks(s: string): (n: nat)
    ensures n <= |s|
    ensures forall i :: 0 <= i < n ==> IsSpace(s[i])
    ensures n == |s| || !IsSpace(s[n])
  {
    if s != [] && IsSpace(s[0]) then 1 + LeadingBlanks(s[1..]) else 0
  }

  /** Number of blanks at the tail of `s`. */
  function TrailingBlanks(s: string): (n: nat)
    ensures n <= |s|
    ensures forall i :: |s| - n <= i < |s| ==> IsSpace(s[i])
    ensures n == |s| || !IsSpace(s[|s| - 1 - n])
  {
    if s != [] && IsSpace(s[|s| - 1]) then 1 + TrailingBlanks(s[..|s| - 1]) else 0
  }

  /** `s.lstrip()` */
  function LStrip(s: string): (r: string)
    ensures |r| <= |s| && r == s[|s| - |r|..]
    ensures r == [] || !IsSpace(r[0])
    ensures Blank(s[..|s| - |r|])
  {
    s[LeadingBlanks(s)..]
  }

  /** `s.rstrip()` */
  function RStrip(s: string): (r: string)
    ensures |r| <= |s| && r == s[..|r|]
    ensures r == [] || !IsSpace(r[|r| - 1])
    ensures Blank(s[|r|..])
  {
    s[..|s| - TrailingBlanks(s)]
  }

  /** `s.strip()` */
  function Strip(s: string): (r: string)
    ensures |r| <= |s|
    ensures r == [] <==> Blank(s)
  {
    var l := LStrip(s);
    var r := RStrip(l);
    StripEmptyIffBlank(s, l, r);
    r
  }

  lemma StripEmptyIffBlank(s: string, l: string, r: string)
    requires l == LStrip(s) && r == RStrip(l)
    ensures r == [] <==> Blank(s)
  {
    var n := LeadingBlanks(s);
    assert l == s[n..];
    if !Blank(s) {
      var j :| 0 <= j < |s| && !IsSpace(s[j]);
      assert n <= j;
      assert l[j - n] == s[j];
    }
  }

  /** Every element of the front part of a concatenation belongs to that part. */
  lemma PrefixElementsIn<T>(xs: seq<T>, pre: seq<T>, post: seq<T>)
    requires xs == pre + post
    ensures forall k | 0 <= k < |pre| :: xs[k] in pre
  {
    forall k | 0 <= k < |pre|
      ensures xs[k] in pre
    {
      assert xs[k] == pre[k];
    }
  }

  /** An element absent from the front part of a concatenation sits at or after its end. */
  lemma PositionPastPrefix<T>(xs: seq<T>, pre: seq<T>, post: seq<T>, k: nat)
    requires xs == pre + post && k < |xs| && xs[k] !in pre
    ensures |pre| <= k
  {
    PrefixElementsIn(xs, pre, post);
  }

  /** In a sequence without repeats, an element heading the back part of a concatenation sits
      exactly at the end of the front part. */
  lemma PositionOfHead<T>(xs: seq<T>, pre: seq<T>, post: seq<T>, k: nat)
    requires xs == pre + post && k < |xs| && post != [] && post[0] == xs[k]
    requires forall i, j | 0 <= i < j < |xs| :: xs[i] != xs[j]
    ensures |pre| == k
  {
    assert xs[|pre|] == post[0];
  }

  predicate StartsWith(s: string, p: string) {
    |p| <= |s| && s[..|p|] == p
  }

  predicate EndsWith(s: string, p: string) {
    |p| <= |s| && s[|s| - |p|..] == p
  }

  /** Python's `p in s` for strings. */
  predicate Contains(s: string, p: string)
    decreases |s|
  {
    StartsWith(s, p) || (s != [] && Contains(s[1..], p))
  }

  /** `sep.join(parts)` */
  function Join(sep: string, parts: seq<string>): string {
    if parts == [] then ""
    else if |parts| == 1 then parts[0]
    else parts[0] + sep + Join(sep, parts[1..])
  }

  /** Python's `xs[-n:]`: the last `min(n, |xs|)` elements. */
  function LastN<T>(xs: seq<T>, n: nat): (r: seq<T>)
    ensures |r| == if |xs| < n then |xs| else n
    ensures r == xs[|xs| - |r|..]
  {
    if |xs| <= n then xs else xs[|xs| - n..]
  }

  /** The last `n` elements lie in any suffix at least `n` long. */
  lemma LastNOfLongSuffix<T>(a: seq<T>, b: seq<T>, n: nat)
    requires |b| >= n
    ensures LastN(a + b, n) == LastN(b, n)
  {
    assert (a + b)[|a + b| - n..] == b[|b| - n..];
  }

  /** Python's `xs[:n]`. */
  function FirstN<T>(xs: seq<T>, n: nat): (r: seq<T>)
    ensures |r| == if |xs| < n then |xs| else n
    ensures r == xs[..|r|]
  {
    if |xs| <= n then xs else xs[..n]
  }

  /** Python's `xs.index(x)`: the position of the first element equal to `x`. */
  function IndexOf<T(==)>(xs: seq<T>, x: T): (r: nat)
    requires x in xs
    ensures r < |xs| && xs[r] == x && x !in xs[..r]
  {
    if xs[0] == x then 0
    else
      var r := 1 + IndexOf(xs[1..], x);
      assert xs[..r] == [xs[0]] + xs[1..][..r - 1];
      r
  }

  /** Length of the run of non-blank characters at the head of `s`. */
  function WordLength(s: string): (n: nat)
    ensures n <= |s|
    ensures forall i :: 0 <= i < n ==> !IsSpace(s[i])
    ensures n == |s| || IsSpace(s[n])
  {
    if s == [] || IsSpace(s[0]) then 0 else 1 + WordLength(s[1..])
  }

  /** Python's `s.split()` with no separator: the maximal runs of non-blank characters, in order. */
  function Words(s: string): (ws: seq<string>)
    ensures forall k :: 0 <= k < |ws| ==> ws[k] != [] && forall i :: 0 <= i < |ws[k]| ==> !IsSpace(ws[k][i])
    decreases |s|
  {
    if s == [] then []
    else if IsSpace(s[0]) then Words(s[1..])
    else
      var n := WordLength(s);
      [s[..n]] + Words(s[n..])
  }

  predicate IsWord(w: string) {
    w != [] && forall i :: 0 <= i < |w| ==> !IsSpace(w[i])
  }

  /** Splitting words joined by single spaces gives the words back. */
  lemma {:induction false} WordsOfJoin(ws: seq<string>)
    requires forall k :: 0 <= k < |ws| ==> IsWord(ws[k])
    ensures Words(Join(" ", ws)) == ws
  {
    if ws == [] {
    } else if |ws| == 1 {
      WordsOfWord(ws[0], "");
      assert ws[0] + "" == ws[0] && [ws[0]] == ws;
    } else {
      var rest := Join(" ", ws[1..]);
      WordsOfJoin(ws[1..]);
      WordsOfWord(ws[0], " " + rest);
      assert Join(" ", ws) == ws[0] + (" " + rest);
      assert Words(" " + rest) == Words(rest) by { assert (" " + rest)[1..] == rest; }
      assert [ws[0]] + ws[1..] == ws;
    }
  }

  /** A word followed by text that starts with a blank (or nothing) splits off as one word. */
  lemma {:induction false} WordsOfWord(w: string, tail: string)
    requires IsWord(w)
    requires tail == [] || IsSpace(tail[0])
    ensures Words(w + tail) == [w] + Words(tail)
  {
    var s := w + tail;
    WordLengthOfWord(w, tail);
    assert s[..|w|] == w && s[|w|..] == tail;
  }

  lemma {:induction false} WordLengthOfWord(w: string, tail: string)
    requires forall i :: 0 <= i < |w| ==> !IsSpace(w[i])
    requires tail == [] || IsSpace(tail[0])
    ensures WordLength(w + tail) == |w|
    decreases |w|
  {
    if w == [] {
      assert w + tail == tail;
    } else {
      assert (w + tail)[1..] == w[1..] + tail;
      WordLengthOfWord(w[1..], tail);
    }
  }

  /** Python's `s.replace(pat, "")`: every occurrence found scanning left to right is cut out. */
  function RemoveAll(s: string, pat: string): (r: string)
    requires pat != []
    ensures |r| <= |s|
    ensures !Contains(s, pat) ==> r == s
    decreases |s|
  {
    if |s| < |pat| then
      NotContainsShort(s, pat);
      s
    else if s[..|pat|] == pat then RemoveAll(s[|pat|..], pat)
    else [s[0]] + RemoveAll(s[1..], pat)
  }

  /** Whether `p` occurs in `s` starting at position `i`. */
  predicate OccursAt(s: string, p: string, i: nat) {
    i + |p| <= |s| && s[i..i + |p|] == p
  }

  /** `replace` cuts out the leftmost occurrence and carries on after it: the text before the
      occurrence is kept as it is. */
  lemma {:induction false} RemoveAllAtFirst(a: string, pat: string, b: string)
    requires pat != []
    requires forall r | 0 <= r < |a| :: !OccursAt(a + pat + b, pat, r)
    ensures RemoveAll(a + pat + b, pat) == a + RemoveAll(b, pat)
    decreases |a|
  {
    var s := a + pat + b;
    if a == [] {
      assert s == pat + b && s[..|pat|] == pat && s[|pat|..] == b;
    } else {
      var a' := a[1..];
      var rest := a' + pat + b;
      assert s[1..] == rest;
      assert !OccursAt(s, pat, 0);
      forall r | 0 <= r < |a'|
        ensures !OccursAt(rest, pat, r)
      {
        OccursShift(s, pat, r);
      }
      calc {
        RemoveAll(s, pat);
      == { RemoveAllSkip(s, pat); }
        [s[0]] + RemoveAll(rest, pat);
      == { RemoveAllAtFirst(a', pat, b); }
        [a[0]] + (a' + RemoveAll(b, pat));
      == { assert a == [a[0]] + a'; }
        a + RemoveAll(b, pat);
      }
    }
  }

  /** An occurrence one position further into `s` is an occurrence in its tail. */
  lemma OccursShift(s: string, pat: string, r: nat)
    requires s != []
    ensures OccursAt(s[1..], pat, r) <==> OccursAt(s, pat, r + 1)
  {
    if r + 1 + |pat| <= |s| {
      assert s[1..][r..r + |pat|] == s[r + 1..r + 1 + |pat|];
    }
  }

  /** Without an occurrence at the front, `replace` keeps the first character. */
  lemma RemoveAllSkip(s: string, pat: string)
    requires pat != [] && |s| >= |pat| && !OccursAt(s, pat, 0)
    ensures RemoveAll(s, pat) == [s[0]] + RemoveAll(s[1..], pat)
  {
  }

  /** With no occurrence at all, `replace` gives the string back. */
  lemma {:induction false} RemoveAllWithoutOccurrence(s: string, pat: string)
    requires pat != []
    requires forall r | 0 <= r <= |s| :: !OccursAt(s, pat, r)
    ensures RemoveAll(s, pat) == s
    decreases |s|
  {
    if |s| >= |pat| {
      var t := s[1..];
      RemoveAllSkip(s, pat);
      forall r | 0 <= r <= |t|
        ensures !OccursAt(t, pat, r)
      {
        OccursShift(s, pat, r);
      }
      RemoveAllWithoutOccurrence(t, pat);
      assert s == [s[0]] + t;
    }
  }

  lemma NotContainsShort(s: string, p: string)
    requires |s| < |p|
    ensures !Contains(s, p)
    decreases |s|
  {
    if s != [] { NotContainsShort(s[1..], p); }
  }

  predicate IsAsciiDigit(c: char) {
    '0' <= c <= '9'
  }

  /** Python's `int(ds)` for a run of decimal digits. */
  function DecimalValue(ds: string): (n: nat)
    requires forall i :: 0 <= i < |ds| ==> IsAsciiDigit(ds[i])
  {
    if ds == [] then 0
    else
      assert IsAsciiDigit(ds[|ds| - 1]);
      10 * DecimalValue(ds[..|ds| - 1]) + (ds[|ds| - 1] as int - '0' as int)
  }

  /** Length of the run of decimal digits at the head of `s`. */
  function DigitRun(s: string): (n: nat)
    ensures n <= |s|
    ensures forall i :: 0 <= i < n ==> IsAsciiDigit(s[i])
    ensures n == |s| || !IsAsciiDigit(s[n])
  {
    if s == [] || !IsAsciiDigit(s[0]) then 0 else 1 + DigitRun(s[1..])
  }

  function AsciiLower(c: char): char {
    if 'A' <= c <= 'Z' then (c as int + 32) as char else c
  }

  function AsciiUpper(c: char): char {
    if 'a' <= c <= 'z' then (c as int - 32) as char else c
  }

  /** `s.lower()` for ASCII letters: every character lower-cased on its own. */
  function Lowered(s: string): (r: string)
    ensures |r| == |s|
    ensures forall i :: 0 <= i < |s| ==> r[i] == AsciiLower(s[i])
  {
    seq(|s|, i requires 0 <= i < |s| => AsciiLower(s[i]))
  }

  /** Python's `s.capitalize()`: first character upper-cased, every other character lower-cased. */
  function Capitalize(s: string): (r: string)
    ensures |r| == |s|
    ensures s != [] ==> r[0] == AsciiUpper(s[0]) && r[1..] == Lowered(s[1..])
    ensures forall i :: 0 <= i < |s| ==> (IsSpace(r[i]) <==> IsSpace(s[i]))
  {
    if s == [] then [] else [AsciiUpper(s[0])] + Lowered(s[1..])
  }

  /** A string occurs in any string that starts with it. */
  lemma ContainsFront(p: string, rest: string)
    ensures Contains(p + rest, p)
  {
    assert (p + rest)[..|p|] == p;
  }

  /** Text put in front of a string keeps every occurrence inside it. */
  lemma {:induction false} ContainsAfter(a: string, b: string, p: string)
    requires Contains(b, p)
    ensures Contains(a + b, p)
    decreases |a|
  {
    if a != [] {
      ContainsAfter(a[1..], b, p);
      assert (a + b)[1..] == a[1..] + b;
    } else {
      assert a + b == b;
    }
  }

  /** A string occurs in any concatenation that has it as its middle piece. */
  lemma ContainsMiddle(a: string, p: string, b: string)
    ensures Contains(a + p + b, p)
  {
    ContainsFront(p, b);
    ContainsAfter(a, p + b, p);
    assert a + p + b == a + (p + b);
  }

  /** Every part of `sep.join(parts)` occurs in the joined string. */
  lemma {:induction false} JoinContainsParts(sep: string, parts: seq<string>, k: nat)
    requires k < |parts|
    ensures Contains(Join(sep, parts), parts[k])
    decreases |parts|
  {
    if |parts| == 1 {
      ContainsFront(parts[0], "");
      assert parts[0] + "" == parts[0];
    } else if k == 0 {
      ContainsFront(parts[0], sep + Join(sep, parts[1..]));
      assert Join(sep, parts) == parts[0] + (sep + Join(sep, parts[1..]));
    } else {
      JoinContainsParts(sep, parts[1..], k - 1);
      ContainsAfter(parts[0] + sep, Join(sep, parts[1..]), parts[k]);
    }
  }

  /** Python's `str(n)` for a non-negative int. */
  function DecimalString(n: nat): (r: string)
    ensures r != []
    ensures forall i :: 0 <= i < |r| ==> IsAsciiDigit(r[i])
  {
    var d := ['0' + (n % 10) as char];
    if n < 10 then d else DecimalString(n / 10) + d
  }

  /** `int(str(n)) == n`: printing a number and reading the digits back gives the number. */
  lemma {:induction false} DecimalRoundTrip(n: nat)
    ensures DecimalValue(DecimalString(n)) == n
  {
    var r := DecimalString(n);
    if n >= 10 {
      DecimalRoundTrip(n / 10);
      assert r[..|r| - 1] == DecimalString(n / 10);
    }
  }

  /** The leftmost position in `[p, end)` where `holds` is true, found by scanning up from `p`. */
  function Leftmost(holds: nat -> bool, p: nat, end: nat): (q: Option<nat>)
    ensures q.Some? ==> p <= q.value < end && holds(q.value) && forall r | p <= r < q.value :: !holds(r)
    ensures q.None? ==> forall r | p <= r < end :: !holds(r)
    decreases end - p
  {
    if p >= end then None
    else if holds(p) then Some(p)
    else Leftmost(holds, p + 1, end)
  }

  /** The first `i + 1` elements are the first `i` and then element `i`. */
  lemma PrefixSnoc<T>(s: seq<T>, i: nat)
    requires i < |s|
    ensures s[..i + 1] == s[..i] + [s[i]]
  {
  }

  lemma AppendAssoc<T>(x: seq<T>, y: seq<T>, z: seq<T>)
    ensures x + y + z == x + (y + z)
  {
  }

  /** Text put after a string keeps every occurrence inside it. */
  lemma {:induction false} ContainsExtended(s: string, p: string, b: string)
    requires Contains(s, p)
    ensures Contains(s + b, p)
    decreases |s|
  {
    if StartsWith(s, p) {
      assert (s + b)[..|p|] == s[..|p|];
    } else {
      ContainsExtended(s[1..], p, b);
      assert (s + b)[1..] == s[1..] + b;
    }
  }

  /** A string occurs at the end of any concatenation that ends with it. */
  lemma ContainsEnd(a: string, p: string)
    ensures Contains(a + p, p)
  {
    ContainsFront(p, "");
    assert p + "" == p;
    ContainsAfter(a, p, p);
  }

  lemma StartsWithExtended(s: string, p: string, b: string)
    requires StartsWith(s, p)
    ensures StartsWith(s + b, p)
  {
    assert (s + b)[..|p|] == s[..|p|];
  }
}
