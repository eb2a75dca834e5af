/** The Python `str` operations the core relies on, over `string` (= seq<char>). */
module Text {
  import opened Common

  /** Python's `str.isspace()` for one character; it is also the class `\s` matches in a
      `str` regular expression. */
  predicate IsSpace(c: char) {
    ('\t' <= c <= '\r') || ('\U{1C}' <= c <= ' ') || c == '\U{85}' || c == '\U{A0}'
    || c == '\U{1680}' || ('\U{2000}' <= c <= '\U{200A}') || c == '\U{2028}' || c == '\U{2029}'
    || c == '\U{202F}' || c == '\U{205F}' || c == '\U{3000}'
  }

  /** Every character is whitespace (vacuously so for ""). */
  predicate IsBlank(s: string) {
    forall i :: 0 <= i < |s| ==> IsSpace(s[i])
  }

  /** `s.lstrip()`. */
  function TrimLeft(s: string): (r: string)
    ensures |r| <= |s|
  {
    if s != [] && IsSpace(s[0]) then TrimLeft(s[1..]) else s
  }

  /** `s.rstrip()`. */
  function TrimRight(s: string): (r: string)
    ensures |r| <= |s|
  {
    if s != [] && IsSpace(s[|s| - 1]) then TrimRight(s[..|s| - 1]) else s
  }

  /** `s.lstrip()` is the suffix left after the longest all-whitespace prefix. */
  lemma {:induction false} TrimLeftSpec(s: string)
    ensures var r := TrimLeft(s);
      r == s[|s| - |r|..] && (r == [] || !IsSpace(r[0])) && IsBlank(s[..|s| - |r|])
  {
    if s != [] && IsSpace(s[0]) {
      TrimLeftSpec(s[1..]);
      var r := TrimLeft(s);
      assert s[1..][..|s[1..]| - |r|] == s[1..|s| - |r|];
    }
  }

  /** `s.rstrip()` is the prefix left after the longest all-whitespace suffix. */
  lemma {:induction false} TrimRightSpec(s: string)
    ensures var r := TrimRight(s);
      r == s[..|r|] && (r == [] || !IsSpace(r[|r| - 1])) && IsBlank(s[|r|..])
  {
    if s != [] && IsSpace(s[|s| - 1]) {
      TrimRightSpec(s[..|s| - 1]);
      var r := TrimRight(s);
      assert s[..|s| - 1][..|r|] == s[..|r|];
    }
  }

  /** Python's `s.strip()`. */
  function Strip(s: string): (r: string)
    ensures |r| <= |s|
  {
    TrimRight(TrimLeft(s))
  }

  /** Where the result of `s.strip()` begins in `s`. */
  function StripStart(s: string): nat {
    |s| - |TrimLeft(s)|
  }

  /** `s.strip()` is the infix of `s` that neither starts nor ends with whitespace, with
      only whitespace cut off on either side. */
  lemma StripSpec(s: string)
    ensures var r := Strip(s); var a := StripStart(s);
      && a + |r| <= |s| && r == s[a..a + |r|] && IsBlank(s[..a]) && IsBlank(s[a + |r|..])
      && (r == [] || (!IsSpace(r[0]) && !IsSpace(r[|r| - 1])))
  {
    var l := TrimLeft(s);
    var r := TrimRight(l);
    var a := |s| - |l|;
    TrimLeftSpec(s);
    TrimRightSpec(l);
    assert r == s[a..a + |r|];
    assert s[a + |r|..] == l[|r|..];
  }

  /** `s.strip()` is empty exactly when `s` is all whitespace. */
  lemma StripEmptyIffBlank(s: string)
    ensures Strip(s) == [] <==> IsBlank(s)
  {
    StripSpec(s);
    var r := Strip(s);
    var a := StripStart(s);
    if r == [] {
      var l := TrimLeft(s);
      TrimLeftSpec(s);
      assert TrimRight(l) == [];
      if l != [] {
        TrimRightSpec(l);
      }
      assert s[..a] == s;
    } else {
      assert s[a] == r[0];
    }
  }

  /** Stripping twice is stripping once. */
  lemma StripIdempotent(s: string)
    ensures Strip(Strip(s)) == Strip(s)
  {
    StripSpec(s);
    StrippedIffNoEdges(Strip(s));
  }

  /** Cutting whitespace off the front leaves a string that starts with a non-space. */
  lemma {:induction false} TrimLeftBlankPrefix(pre: string, y: string)
    requires IsBlank(pre) && (y == [] || !IsSpace(y[0]))
    ensures TrimLeft(pre + y) == y
  {
    if pre != [] {
      assert (pre + y)[1..] == pre[1..] + y;
      TrimLeftBlankPrefix(pre[1..], y);
    }
  }

  lemma {:induction false} TrimRightBlankSuffix(y: string, post: string)
    requires IsBlank(post) && (y == [] || !IsSpace(y[|y| - 1]))
    ensures TrimRight(y + post) == y
  {
    if post != [] {
      assert (y + post)[..|y + post| - 1] == y + post[..|post| - 1];
      TrimRightBlankSuffix(y, post[..|post| - 1]);
    }
  }

  /** Stripping whitespace padding off a string without edge whitespace gives it back. */
  lemma StripPad(pre: string, x: string, post: string)
    requires IsBlank(pre) && IsBlank(post)
    requires x == [] || (!IsSpace(x[0]) && !IsSpace(x[|x| - 1]))
    ensures Strip(pre + x + post) == x
  {
    if x == [] {
      assert pre + x + post == (pre + post) + [];
      TrimLeftBlankPrefix(pre + post, []);
    } else {
      assert pre + x + post == pre + (x + post);
      TrimLeftBlankPrefix(pre, x + post);
      TrimRightBlankSuffix(x, post);
    }
  }

  /** A string is stripped exactly when it has no whitespace at either end. */
  lemma StrippedIffNoEdges(x: string)
    ensures Strip(x) == x <==> (x == [] || (!IsSpace(x[0]) && !IsSpace(x[|x| - 1])))
  {
    StripSpec(x);
    if x == [] || (!IsSpace(x[0]) && !IsSpace(x[|x| - 1])) {
      StripPad([], x, []);
      assert [] + x + [] == x;
    }
  }

  /** Python's `s.startswith(p)`. */
  predicate StartsWith(s: string, p: string) {
    |p| <= |s| && s[..|p|] == p
  }

  /** `needle` occurs in `hay` starting at index `i`. */
  predicate OccursAt(hay: string, needle: string, i: nat) {
    i + |needle| <= |hay| && hay[i..i + |needle|] == needle
  }

  /** Python's `needle in hay` for two strings: `needle` occurs somewhere in `hay`. */
  predicate IsSubstring(needle: string, hay: string)
    decreases |hay|
  {
    StartsWith(hay, needle) || (hay != [] && IsSubstring(needle, hay[1..]))
  }

  lemma {:induction false} IsSubstringAt(needle: string, hay: string)
    ensures IsSubstring(needle, hay) <==> exists i: nat :: OccursAt(hay, needle, i)
    decreases |hay|
  {
    if StartsWith(hay, needle) {
      assert OccursAt(hay, needle, 0);
    } else if hay == [] {
    } else {
      IsSubstringAt(needle, hay[1..]);
      if exists i: nat :: OccursAt(hay, needle, i) {
        var i: nat :| OccursAt(hay, needle, i);
        assert i != 0;
        assert OccursAt(hay[1..], needle, i - 1) by {
          assert hay[1..][i - 1..i - 1 + |needle|] == hay[i..i + |needle|];
        }
      }
      if IsSubstring(needle, hay[1..]) {
        var i: nat :| OccursAt(hay[1..], needle, i);
        assert OccursAt(hay, needle, i + 1) by {
          assert hay[1..][i..i + |needle|] == hay[i + 1..i + 1 + |needle|];
        }
      }
    }
  }

  /** The first index at or after `from` where `sep` occurs in `s`. */
  function IndexFrom(s: string, sep: string, from: nat): (r: Option<nat>)
    requires from <= |s|
    ensures r.Some? ==> from <= r.value && r.value + |sep| <= |s|
    decreases |s| - from
  {
    if from + |sep| > |s| then None
    else if s[from..from + |sep|] == sep then Some(from)
    else IndexFrom(s, sep, from + 1)
  }

  /** What IndexFrom finds is an occurrence. */
  lemma {:induction false} IndexFromOccurs(s: string, sep: string, from: nat)
    requires from <= |s|
    ensures IndexFrom(s, sep, from).Some? ==> OccursAt(s, sep, IndexFrom(s, sep, from).value)
    decreases |s| - from
  {
    if from + |sep| <= |s| && s[from..from + |sep|] != sep {
      IndexFromOccurs(s, sep, from + 1);
    }
  }

  /** IndexFrom finds the first occurrence, and reports None only when there is none. */
  lemma {:induction false} IndexFromMinimal(s: string, sep: string, from: nat)
    requires from <= |s|
    ensures IndexFrom(s, sep, from).Some? ==>
              forall j: nat :: from <= j < IndexFrom(s, sep, from).value ==> !OccursAt(s, sep, j)
    ensures IndexFrom(s, sep, from).None? ==> forall j: nat :: from <= j ==> !OccursAt(s, sep, j)
    decreases |s| - from
  {
    if from + |sep| <= |s| && s[from..from + |sep|] != sep {
      IndexFromMinimal(s, sep, from + 1);
    }
  }

  /** Python's `s.split(sep)` for a non-empty separator: the pieces between the
      non-overlapping occurrences of `sep`, found left to right. */
  function Split(s: string, sep: string): (parts: seq<string>)
    requires |sep| > 0
    ensures |parts| >= 1
    decreases |s|
  {
    match IndexFrom(s, sep, 0)
    case None => [s]
    case Some(i) => [s[..i]] + Split(s[i + |sep|..], sep)
  }

  /** Python's `sep.join(parts)`. */
  function Join(sep: string, parts: seq<string>): string {
    if |parts| == 0 then ""
    else if |parts| == 1 then parts[0]
    else parts[0] + sep + Join(sep, parts[1..])
  }

  /** Joining the pieces of a split with the same separator gives back the string. */
  lemma {:induction false} JoinSplit(s: string, sep: string)
    requires |sep| > 0
    ensures Join(sep, Split(s, sep)) == s
    decreases |s|
  {
    var r := IndexFrom(s, sep, 0);
    if r.None? {
      assert Split(s, sep) == [s];
    } else {
      var i := r.value;
      var rest := s[i + |sep|..];
      var tail := Split(rest, sep);
      JoinSplit(rest, sep);
      SplitStep(s, sep, i);
      JoinCons(sep, s[..i], tail);
      IndexFromOccurs(s, sep, 0);
      Reassemble(s, sep, i);
    }
  }

  /** Cutting `s` around an occurrence of `sep` and gluing the parts back gives `s`. */
  lemma Reassemble(s: string, sep: string, i: nat)
    requires OccursAt(s, sep, i)
    ensures s[..i] + sep + s[i + |sep|..] == s
  {
    assert s[i..i + |sep|] == sep;
    assert s == s[..i] + s[i..i + |sep|] + s[i + |sep|..];
  }

  lemma SplitStep(s: string, sep: string, i: nat)
    requires |sep| > 0 && IndexFrom(s, sep, 0) == Some(i)
    ensures Split(s, sep) == [s[..i]] + Split(s[i + |sep|..], sep)
  {
  }

  lemma JoinCons(sep: string, p: string, ps: seq<string>)
    requires |ps| >= 1
    ensures Join(sep, [p] + ps) == p + sep + Join(sep, ps)
  {
    assert ([p] + ps)[1..] == ps;
  }

  /** No piece of a split contains the separator. */
  lemma {:induction false} SplitPiecesFree(s: string, sep: string, k: nat)
    requires |sep| > 0 && k < |Split(s, sep)|
    ensures !IsSubstring(sep, Split(s, sep)[k])
    decreases |s|
  {
    var r := IndexFrom(s, sep, 0);
    IndexFromMinimal(s, sep, 0);
    if r.None? {
      IsSubstringAt(sep, s);
    } else {
      var i := r.value;
      if k == 0 {
        IsSubstringAt(sep, s[..i]);
        PrefixOccurrences(s, sep, i);
      } else {
        SplitPiecesFree(s[i + |sep|..], sep, k - 1);
      }
    }
  }

  /** An occurrence inside a prefix is an occurrence in the whole string, before the
      prefix ends. */
  lemma PrefixOccurrences(s: string, sep: string, i: nat)
    requires i <= |s|
    ensures forall j: nat :: OccursAt(s[..i], sep, j) ==> j + |sep| <= i && OccursAt(s, sep, j)
  {
    forall j: nat | OccursAt(s[..i], sep, j) ensures j + |sep| <= i && OccursAt(s, sep, j) {
      assert s[..i][j..j + |sep|] == s[j..j + |sep|];
    }
  }

  /** For a one-character separator, splitting a join of separator-free pieces gives the
      pieces back. */
  lemma {:induction false} SplitJoin(sep: char, parts: seq<string>)
    requires |parts| >= 1
    requires forall k :: 0 <= k < |parts| ==> sep !in parts[k]
    ensures Split(Join([sep], parts), [sep]) == parts
  {
    var p := parts[0];
    var s := Join([sep], parts);
    if |parts| == 1 {
      NoIndexIn(p, sep);
    } else {
      var rest := parts[1..];
      assert s == p + [sep] + Join([sep], rest);
      forall j: nat | j < |p| ensures !OccursAt(s, [sep], j) {
        assert s[j] == p[j];
      }
      assert OccursAt(s, [sep], |p|);
      IndexFromFirst(s, [sep], 0, |p|);
      SplitStep(s, [sep], |p|);
      assert s[..|p|] == p;
      assert s[|p| + 1..] == Join([sep], rest);
      SplitJoin(sep, rest);
      assert [p] + rest == parts;
    }
  }

  lemma NoIndexIn(p: string, sep: char)
    ensures IndexFrom(p, [sep], 0).Some? ==> sep in p
  {
    var r := IndexFrom(p, [sep], 0);
    IndexFromOccurs(p, [sep], 0);
    if r.Some? {
      assert p[r.value..r.value + 1] == [sep];
      assert p[r.value] == sep;
    }
  }

  lemma {:induction false} IndexFromFirst(s: string, sep: string, from: nat, i: nat)
    requires from <= i && OccursAt(s, sep, i)
    requires forall j: nat :: from <= j < i ==> !OccursAt(s, sep, j)
    ensures IndexFrom(s, sep, from) == Some(i)
    decreases i - from
  {
    if from < i {
      assert !OccursAt(s, sep, from);
      IndexFromFirst(s, sep, from + 1, i);
    }
  }

  /** ASCII letter folding. */
  function LowerChar(c: char): (d: char)
    ensures 'A' <= c <= 'Z' ==> 'a' <= d <= 'z' && d as int - c as int == 32
    ensures !('A' <= c <= 'Z') ==> d == c
  {
    if 'A' <= c <= 'Z' then (c as int + 32) as char else c
  }

  /** Python's `s.lower()`, restricted to ASCII letters (see README, Left out). */
  function Lower(s: string): (r: string)
    ensures |r| == |s| && forall i :: 0 <= i < |s| ==> r[i] == LowerChar(s[i])
  {
    seq(|s|, i requires 0 <= i < |s| => LowerChar(s[i]))
  }

  function DigitChar(d: nat): (c: char)
    requires d < 10
    ensures '0' <= c <= '9' && c as int - '0' as int == d
  {
    ('0' as int + d) as char
  }

  /** Python's `str(n)` for a natural number: its decimal digits. */
  function NatToString(n: nat): (s: string)
    ensures |s| >= 1 && forall i :: 0 <= i < |s| ==> '0' <= s[i] <= '9'
    ensures n > 0 ==> s[0] != '0'
    decreases n
  {
    if n < 10 then [DigitChar(n)] else NatToString(n / 10) + [DigitChar(n % 10)]
  }

  /** Python's `str(i)` for an integer. */
  function IntToString(i: int): string {
    if i < 0 then "-" + NatToString(-i) else NatToString(i)
  }

  /** The value of a string of decimal digits (the partner of NatToString). */
  function DigitsValue(s: string): nat
    requires forall i :: 0 <= i < |s| ==> '0' <= s[i] <= '9'
  {
    if s == [] then 0 else DigitsValue(s[..|s| - 1]) * 10 + (s[|s| - 1] as int - '0' as int)
  }

  /** Reading back the decimal digits gives the number. */
  lemma {:induction false} NatToStringRoundTrip(n: nat)
    ensures DigitsValue(NatToString(n)) == n
    decreases n
  {
    if n >= 10 {
      NatToStringRoundTrip(n / 10);
      var s := NatToString(n);
      assert s[..|s| - 1] == NatToString(n / 10);
    }
  }
}
