/** How mcp_controller.py tells a Notion id from a database name: the 8-4-4-4-12 UUID
    pattern of `_is_valid_uuid` (mcp_controller.py:392-395), and the regular expression
    `(.*?)(?:\s+데이터베이스(?:\s+ID)?)?$` that `_create_page` and `_query_database` use
    to cut a trailing " 데이터베이스" / " 데이터베이스 ID" off a name. */
module Identifiers {
  import opened Common
  import opened Text
  import opened Json

  // ---------------------------------------------------------------- the UUID pattern

  /** `[0-9a-f]` under `re.IGNORECASE`. */
  predicate HexDigit(c: char) {
    ('0' <= c <= '9') || ('a' <= c <= 'f') || ('A' <= c <= 'F')
  }

  predicate AllHex(s: string) {
    forall i :: 0 <= i < |s| ==> HexDigit(s[i])
  }

  /** Python's `$` without MULTILINE: the end of the string, or just before a final
      newline. */
  predicate AtEnd(r: string) {
    r == "" || r == "\n"
  }

  /** The group lengths of `[0-9a-f]{8}-[0-9a-f]{4}-[0-9a-f]{4}-[0-9a-f]{4}-[0-9a-f]{12}`. */
  const UuidGroups: seq<nat> := [8, 4, 4, 4, 12]

  /** The pattern read left to right: a run of hex digits per group, a hyphen between
      groups; the text left over, or None where the pattern fails. */
  function MatchHexGroups(s: string, groups: seq<nat>): Option<string>
    decreases |groups|
  {
    if groups == [] then Some(s)
    else
      var n := groups[0];
      if |s| < n || !AllHex(s[..n]) then None
      else if |groups| == 1 then Some(s[n..])
      else if |s| > n && s[n] == '-' then MatchHexGroups(s[n + 1..], groups[1..])
      else None
  }

  /** `uuid_pattern.match(s)` succeeds: the pattern from the first character, then `$`. */
  predicate UuidMatches(s: string) {
    var rest := MatchHexGroups(s, UuidGroups);
    rest.Some? && AtEnd(rest.value)
  }

  predicate DashPosition(i: int) {
    i == 8 || i == 13 || i == 18 || i == 23
  }

  /** The shape the pattern describes, position by position: 36 characters with hyphens
      at 8, 13, 18 and 23 and hex digits elsewhere, optionally followed by one newline. */
  predicate UuidShape(s: string) {
    (|s| == 36 || (|s| == 37 && s[36] == '\n')) && UuidBody(s)
  }

  predicate UuidBody(s: string) {
    |s| >= 36 && forall i :: 0 <= i < 36 ==> if DashPosition(i) then s[i] == '-' else HexDigit(s[i])
  }

  /** The shape of `|groups|` hyphen-separated hex runs at the front of `s`. */
  predicate GroupsShape(s: string, groups: seq<nat>)
    decreases |groups|
  {
    if groups == [] then true
    else
      var n := groups[0];
      && |s| >= n && AllHex(s[..n])
      && (|groups| == 1 || (|s| > n && s[n] == '-' && GroupsShape(s[n + 1..], groups[1..])))
  }

  function GroupsLength(groups: seq<nat>): nat {
    if groups == [] then 0
    else if |groups| == 1 then groups[0]
    else groups[0] + 1 + GroupsLength(groups[1..])
  }

  /** The matcher succeeds exactly on the shape, and leaves what follows it. */
  lemma {:induction false} MatchHexGroupsShape(s: string, groups: seq<nat>)
    ensures MatchHexGroups(s, groups).Some? <==> GroupsShape(s, groups)
    ensures GroupsShape(s, groups) ==>
              GroupsLength(groups) <= |s| && MatchHexGroups(s, groups) == Some(s[GroupsLength(groups)..])
    decreases |groups|
  {
    if |groups| > 1 {
      var n := groups[0];
      if |s| > n {
        MatchHexGroupsShape(s[n + 1..], groups[1..]);
        assert GroupsShape(s, groups) ==> s[n + 1..][GroupsLength(groups[1..])..] == s[GroupsLength(groups)..];
      }
    }
  }

  lemma UuidGroupsShape(s: string)
    ensures GroupsShape(s, UuidGroups) <==> UuidBody(s)
  {
    var g := UuidGroups;
    assert g[1..] == [4, 4, 4, 12] && g[2..] == [4, 4, 12] && g[3..] == [4, 12] && g[4..] == [12];
    if |s| >= 36 {
      UuidGroupsUnfold(s);
      UuidRunsBody(s);
    } else {
      assert !GroupsShape(s, g) by { GroupsShapeLength(s, g); }
    }
  }

  /** The five runs and four hyphens of a string long enough for them. */
  predicate UuidRuns(s: string)
    requires |s| >= 36
  {
    AllHex(s[0..8]) && s[8] == '-' && AllHex(s[9..13]) && s[13] == '-' && AllHex(s[14..18])
    && s[18] == '-' && AllHex(s[19..23]) && s[23] == '-' && AllHex(s[24..36])
  }

  lemma UuidGroupsUnfold(s: string)
    requires |s| >= 36
    ensures GroupsShape(s, UuidGroups) <==> UuidRuns(s)
  {
    var g := UuidGroups;
    assert s[..8] == s[0..8];
    assert s[9..][..4] == s[9..13];
    assert s[9..][5..] == s[14..];
    assert s[14..][..4] == s[14..18];
    assert s[14..][5..] == s[19..];
    assert s[19..][..4] == s[19..23];
    assert s[19..][5..] == s[24..];
    assert s[24..][..12] == s[24..36];
    assert g[1..] == [4, 4, 4, 12] && g[2..] == [4, 4, 12] && g[3..] == [4, 12] && g[4..] == [12];
  }

  lemma UuidRunsBody(s: string)
    requires |s| >= 36
    ensures UuidRuns(s) <==> UuidBody(s)
  {
    HexRunAt(s, 0, 8);
    HexRunAt(s, 9, 4);
    HexRunAt(s, 14, 4);
    HexRunAt(s, 19, 4);
    HexRunAt(s, 24, 12);
  }

  /** A run of hex digits, positionally. */
  lemma HexRunAt(s: string, from: nat, n: nat)
    requires from + n <= |s|
    ensures AllHex(s[from..from + n]) <==> forall i :: from <= i < from + n ==> HexDigit(s[i])
  {
    var t := s[from..from + n];
    if forall i :: from <= i < from + n ==> HexDigit(s[i]) {
      forall k | 0 <= k < |t| ensures HexDigit(t[k]) {
        assert t[k] == s[from + k];
      }
    }
    if AllHex(t) {
      forall i | from <= i < from + n ensures HexDigit(s[i]) {
        assert s[i] == t[i - from];
      }
    }
  }

  lemma {:induction false} GroupsShapeLength(s: string, groups: seq<nat>)
    ensures GroupsShape(s, groups) ==> GroupsLength(groups) <= |s|
    decreases |groups|
  {
    if |groups| > 1 && |s| > groups[0] {
      GroupsShapeLength(s[groups[0] + 1..], groups[1..]);
    }
  }

  /** The pattern accepts exactly the 8-4-4-4-12 shape, in either letter case, with at
      most one trailing newline. */
  lemma UuidMatchesIffShape(s: string)
    ensures UuidMatches(s) <==> UuidShape(s)
  {
    MatchHexGroupsShape(s, UuidGroups);
    UuidGroupsShape(s);
    assert GroupsLength(UuidGroups) == 36;
    if |s| >= 36 {
      assert UuidShape(s) <==> UuidBody(s) && AtEnd(s[36..]);
    }
  }

  /** `_is_valid_uuid(v)`: a string is checked against the pattern; any other value makes
      `re.match` raise TypeError. */
  function IsValidUuid(v: Json): (r: Result<bool>)
    ensures r.Err? <==> !v.JStr?
    ensures v.JStr? ==> (r.value <==> UuidShape(v.s))
  {
    if v.JStr? then
      UuidMatchesIffShape(v.s);
      Ok(UuidMatches(v.s))
    else Err(TypeError)
  }

  lemma UuidExamples()
    ensures UuidShape("1a2b3c4d-0000-ABCD-ef01-23456789abcd")
    ensures UuidShape("1a2b3c4d-0000-ABCD-ef01-23456789abcd\n")
    ensures !UuidShape("KT")
    ensures !UuidShape("1a2b3c4d00000ABCD0ef01023456789abcd")
  {
    var u := "1a2b3c4d-0000-ABCD-ef01-23456789abcd";
    assert forall i :: 0 <= i < 36 ==> if DashPosition(i) then u[i] == '-' else HexDigit(u[i]);
    var v := u + "\n";
    assert forall i :: 0 <= i < 36 ==> v[i] == u[i];
  }

  // ---------------------------------------------------------------- the name pattern

  const DbWord: string := "데이터베이스"
  const IdWord: string := "ID"

  /** `\s+ID$`, with the run of whitespace necessarily the longest one, since "I" is not
      whitespace. */
  predicate IdTail(t: string) {
    var v := TrimLeft(t);
    |v| < |t| && StartsWith(v, IdWord) && AtEnd(v[2..])
  }

  /** `\s+데이터베이스(?:\s+ID)?$`. */
  predicate DbTail(r: string) {
    var u := TrimLeft(r);
    |u| < |r| && StartsWith(u, DbWord) && (AtEnd(u[6..]) || IdTail(u[6..]))
  }

  /** What the pattern needs after group 1: the optional suffix, then `$`. */
  predicate RestMatches(r: string) {
    AtEnd(r) || DbTail(r)
  }

  /** The lazy group `(.*?)` from position `p`: the shortest extension, from length `k`
      on, after which the rest of the pattern matches; `.` does not cross a newline. */
  function LazyGroup(s: string, p: nat, k: nat): Option<string>
    requires p + k <= |s|
    decreases |s| - (p + k)
  {
    if RestMatches(s[p + k..]) then Some(s[p..p + k])
    else if p + k < |s| && s[p + k] != '\n' then LazyGroup(s, p, k + 1)
    else None
  }

  /** `re.search`: the first start position at which the pattern matches, and group 1
      there. */
  function SearchGroup(s: string, p: nat): string
    requires p <= |s|
    decreases |s| - p
  {
    var g := LazyGroup(s, p, 0);
    if g.Some? then g.value
    else if p < |s| then SearchGroup(s, p + 1)
    else ""
  }

  /** `db_name_match.group(1).strip()`. */
  function ExtractDbName(s: string): string {
    Strip(SearchGroup(s, 0))
  }

  /** The search always succeeds: at the end of the string both optional parts are
      empty, so `if db_name_match` is never false. */
  lemma PatternAlwaysMatches(s: string)
    ensures LazyGroup(s, |s|, 0) == Some("")
  {
    assert s[|s|..] == "";
    assert RestMatches(s[|s| + 0..]);
    assert s[|s|..|s| + 0] == "";
  }

  /** Group 1 is `s[p..p + k]` for the first length `k` at which the rest matches, when no
      newline comes before it. */
  lemma {:induction false} LazyGroupFirst(s: string, p: nat, k: nat, kk: nat)
    requires k <= kk && p + kk <= |s|
    requires RestMatches(s[p + kk..])
    requires forall j :: p + k <= j < p + kk ==> !RestMatches(s[j..]) && s[j] != '\n'
    ensures LazyGroup(s, p, k) == Some(s[p..p + kk])
    decreases kk - k
  {
    if k < kk {
      LazyGroupFirst(s, p, k + 1, kk);
    }
  }

  /** A whitespace-free name is its own database name. */
  lemma NoSpaceName(n: string)
    requires forall i :: 0 <= i < |n| ==> !IsSpace(n[i])
    ensures ExtractDbName(n) == n
  {
    forall j | 0 <= j < |n| ensures !RestMatches(n[j..]) && n[j] != '\n' {
      assert n[j..][0] == n[j];
      assert n[j] != '\n' by { assert !IsSpace(n[j]); }
      assert TrimLeft(n[j..]) == n[j..];
    }
    assert n[0..0 + |n|] == n;
    LazyGroupFirst(n, 0, 0, |n|);
    StripPad([], n, []);
    assert [] + n + [] == n;
  }

  /** The suffix can only be matched as a whole: what comes before it is blank. */
  lemma DbTailNeedsBlankHead(w: string, sfx: string)
    requires sfx == " " + DbWord || sfx == " " + DbWord + " " + IdWord
    ensures DbTail(w + sfx) ==> IsBlank(w)
  {
    if sfx == " " + DbWord {
      DbTailPlain(w);
      assert w + sfx == w + " " + DbWord;
    } else {
      DbTailWithId(w);
      assert w + sfx == w + " " + DbWord + " " + IdWord;
    }
  }

  /** Left-stripping keeps the last character of a string that is not all whitespace. */
  lemma TrimLeftLast(t: string)
    ensures TrimLeft(t) != [] ==> TrimLeft(t)[|TrimLeft(t)| - 1] == t[|t| - 1]
  {
    TrimLeftSpec(t);
  }

  lemma IdTailLast(t: string)
    ensures IdTail(t) ==> TrimLeft(t) == IdWord || t[|t| - 1] == '\n'
  {
    var v := TrimLeft(t);
    TrimLeftSpec(t);
    TrimLeftLast(t);
    if IdTail(t) && v != IdWord {
      assert v[2..] == "\n";
      assert v[|v| - 1] == '\n';
    }
  }

  predicate SpaceAt(r: string, j: int) {
    0 <= j < |r| && IsSpace(r[j])
  }

  lemma DbTailPlain(w: string)
    ensures DbTail(w + " " + DbWord) ==> IsBlank(w)
  {
    var r := w + " " + DbWord;
    assert r[..|w| + 1] == w + " ";
    assert r[|r| - 1] == '스';
    var u := TrimLeft(r);
    TrimLeftSpec(r);
    TrimLeftLast(r);
    if DbTail(r) {
      var t := u[6..];
      IdTailLast(t);
      TrimLeftLast(t);
      assert t == "";
      assert |r| - |u| == |w| + 1;
      BlankPrefix(w, " ");
    }
  }

  lemma DbTailWithId(w: string)
    ensures DbTail(w + " " + DbWord + " " + IdWord) ==> IsBlank(w)
  {
    var r := w + " " + DbWord + " " + IdWord;
    assert r[..|w| + 1] == w + " ";
    assert r[|r| - 1] == 'D' && r[|r| - 4] == '스';
    var u := TrimLeft(r);
    TrimLeftSpec(r);
    TrimLeftLast(r);
    if DbTail(r) {
      var t := u[6..];
      assert t == r[|r| - |t|..];
      IdTailLast(t);
      TrimLeftSpec(t);
      OneSpaceBeforeId(r, t);
      assert |r| - |u| == |w| + 1;
      BlankPrefix(w, " ");
    }
  }

  /** Only one blank fits between "데이터베이스" and "ID" at the end of `r`. */
  lemma OneSpaceBeforeId(r: string, t: string)
    requires |r| >= 4 && r[|r| - 4] == '스' && r[|r| - 1] == 'D'
    requires |t| <= |r| && t == r[|r| - |t|..]
    requires IdTail(t) ==> TrimLeft(t) == IdWord || t[|t| - 1] == '\n'
    requires IdTail(t)
    requires var v := TrimLeft(t); v == t[|t| - |v|..] && IsBlank(t[..|t| - |v|])
    ensures |t| == 3
  {
    var v := TrimLeft(t);
    assert t[|t| - 1] == 'D';
    assert v == IdWord;
    assert |t| - |v| >= 1;
  }

  lemma BlankPrefix(w: string, x: string)
    requires IsBlank(w + x)
    ensures IsBlank(w)
  {
    forall i | 0 <= i < |w| ensures IsSpace(w[i]) {
      assert (w + x)[i] == w[i];
    }
  }

  /** A name followed by " 데이터베이스" or " 데이터베이스 ID" (one line, no newline) gives
      the name back, stripped: exactly one suffix is removed. */
  lemma SuffixRemoved(n: string, sfx: string)
    requires '\n' !in n
    requires sfx == " " + DbWord || sfx == " " + DbWord + " " + IdWord
    ensures ExtractDbName(n + sfx) == Strip(n)
  {
    var s := n + sfx;
    var kk := |TrimRight(n)|;
    TrimRightSpec(n);
    forall j | 0 <= j < kk ensures !RestMatches(s[j..]) && s[j] != '\n' {
      NoEarlierMatch(n, sfx, j);
    }
    SuffixMatchesAfterName(n, sfx);
    LazyGroupFirst(s, 0, 0, kk);
    assert s[0..kk] == TrimRight(n);
    StripTrimRight(n);
  }

  /** A one-line name none of whose tails is a suffix the pattern removes (such as
      "KT Projects") gives the whole name back, stripped. */
  lemma NoSuffixKept(n: string)
    requires '\n' !in n
    requires forall j :: 0 <= j < |n| ==> !DbTail(n[j..])
    ensures ExtractDbName(n) == Strip(n)
  {
    forall j | 0 <= j < |n| ensures !RestMatches(n[j..]) && n[j] != '\n' {
      assert n[j..][0] == n[j];
    }
    assert n[|n|..] == "";
    assert n[0..0 + |n|] == n;
    LazyGroupFirst(n, 0, 0, |n|);
  }

  lemma NoEarlierMatch(n: string, sfx: string, j: nat)
    requires '\n' !in n
    requires sfx == " " + DbWord || sfx == " " + DbWord + " " + IdWord
    requires j < |TrimRight(n)|
    ensures !RestMatches((n + sfx)[j..]) && (n + sfx)[j] != '\n'
  {
    var kk := |TrimRight(n)|;
    TrimRightSpec(n);
    var s := n + sfx;
    assert s[j] == n[j];
    assert s[j..] == n[j..] + sfx;
    DbTailNeedsBlankHead(n[j..], sfx);
    assert n[j..][kk - 1 - j] == n[kk - 1];
    assert TrimRight(n)[kk - 1] == n[kk - 1];
  }

  lemma SuffixMatchesAfterName(n: string, sfx: string)
    requires sfx == " " + DbWord || sfx == " " + DbWord + " " + IdWord
    ensures |TrimRight(n)| <= |n| && RestMatches((n + sfx)[|TrimRight(n)|..])
  {
    var u := sfx[1..];
    assert sfx == " " + u;
    PadBeforeWords(n, u);
    PaddedWordsMatch(n[|TrimRight(n)|..] + " ", u);
  }

  /** Cutting at the end of the trimmed name leaves its trailing spaces, a space, and
      the words. */
  lemma PadBeforeWords(n: string, u: string)
    ensures var kk := |TrimRight(n)|;
      kk <= |n| && (n + (" " + u))[kk..] == n[kk..] + " " + u && IsBlank(n[kk..] + " ")
  {
    var kk := |TrimRight(n)|;
    TrimRightSpec(n);
    assert (n + (" " + u))[kk..] == n[kk..] + " " + u;
  }

  /** Spaces, then the words of the pattern: the rest of the pattern matches. */
  lemma PaddedWordsMatch(pad: string, u: string)
    requires IsBlank(pad) && pad != []
    requires u == DbWord || u == DbWord + " " + IdWord
    ensures DbTail(pad + u)
  {
    TrimLeftBlankPrefix(pad, u);
    DbWordsMatch(u);
  }

  /** The words of the pattern after the first run of spaces match its remainder. */
  lemma DbWordsMatch(u: string)
    requires u == DbWord || u == DbWord + " " + IdWord
    ensures StartsWith(u, DbWord) && (AtEnd(u[6..]) || IdTail(u[6..]))
  {
    if u != DbWord {
      assert u[6..] == " " + IdWord;
      TrimLeftBlankPrefix(" ", IdWord);
    }
  }

  lemma StripTrimRight(n: string)
    ensures Strip(TrimRight(n)) == Strip(n)
  {
    StripSpec(n);
    var x := Strip(n);
    var a := StripStart(n);
    assert n == n[..a] + x + n[a + |x|..];
    StripTrimRightPadded(n[..a], x, n[a + |x|..]);
  }

  lemma {:induction false} StripTrimRightPadded(pre: string, x: string, post: string)
    requires IsBlank(pre) && IsBlank(post)
    requires x == [] || (!IsSpace(x[0]) && !IsSpace(x[|x| - 1]))
    ensures Strip(TrimRight(pre + x + post)) == x
  {
    if x == [] {
      var n := pre + x + post;
      assert n == [] + n;
      assert IsBlank(n) by {
        forall i | 0 <= i < |n| ensures IsSpace(n[i]) {
          if i < |pre| { assert n[i] == pre[i]; } else { assert n[i] == post[i - |pre|]; }
        }
      }
      TrimRightBlankSuffix([], n);
      assert TrimRight(n) == [];
      StripPad([], [], []);
      assert [] + [] + [] == x;
    } else {
      assert pre + x + [] == pre + x;
      TrimRightBlankSuffix(pre + x, post);
      StripPad(pre, x, []);
    }
  }

  lemma NameExamples()
    ensures ExtractDbName("KT 데이터베이스") == "KT"
    ensures ExtractDbName("KT 데이터베이스 ID") == "KT"
    ensures ExtractDbName("KT") == "KT"
  {
    var kt := "KT";
    assert forall i :: 0 <= i < |kt| ==> !IsSpace(kt[i]);
    NoSpaceName(kt);
    StrippedIffNoEdges(kt);
    SuffixRemoved(kt, " " + DbWord);
    SuffixRemoved(kt, " " + DbWord + " " + IdWord);
    assert kt + (" " + DbWord) == "KT 데이터베이스";
    assert kt + (" " + DbWord + " " + IdWord) == "KT 데이터베이스 ID";
  }
}
