/**
 * The Rust standard-library string operations the installer relies on, over `seq<char>`:
 * `split_whitespace`, `split(char)`, `lines`, `trim`, `starts_with`/`ends_with`,
 * `find`/`contains`, `replace`, `usize::from_str` and `usize::to_string`.
 */
module Text {
  import opened Wrappers

  /** Unicode White_Space, the class Rust's `char::is_whitespace` tests. */
  predicate IsWhitespace(c: char) {
    c == ' ' || ('\t' <= c <= '\r') || c == '\U{85}' || c == '\U{A0}' || c == '\U{1680}'
    || ('\U{2000}' <= c <= '\U{200A}') || c == '\U{2028}' || c == '\U{2029}'
    || c == '\U{202F}' || c == '\U{205F}' || c == '\U{3000}'
  }

  predicate NoWhitespace(s: string) {
    forall i :: 0 <= i < |s| ==> !IsWhitespace(s[i])
  }

  predicate AllWhitespace(s: string) {
    forall i :: 0 <= i < |s| ==> IsWhitespace(s[i])
  }

  predicate IsDigit(c: char) {
    '0' <= c <= '9'
  }

  predicate AllDigits(s: string) {
    forall i :: 0 <= i < |s| ==> IsDigit(s[i])
  }

  // ---------------------------------------------------------------------------
  // Prefixes, suffixes and searching

  predicate StartsWith(s: string, prefix: string) {
    |prefix| <= |s| && s[..|prefix|] == prefix
  }

  predicate EndsWith(s: string, suffix: string) {
    |suffix| <= |s| && s[|s| - |suffix|..] == suffix
  }

  /** The first index of `c` in `s` (Rust's `str::find` with a `char`). */
  function IndexOf(s: string, c: char): (r: Option<nat>)
    ensures r.None? <==> c !in s
    ensures r.Some? ==> r.value < |s| && s[r.value] == c && c !in s[..r.value]
    decreases |s|
  {
    if s == [] then None
    else if s[0] == c then Some(0)
    else
      assert s == [s[0]] + s[1..];
      match IndexOf(s[1..], c)
      case None => None
      case Some(i) =>
        assert s[..i + 1] == [s[0]] + s[1..][..i];
        Some(i + 1)
  }

  /** `pat` occurs in `s` starting at index `i`. */
  predicate OccursAt(s: string, pat: string, i: nat) {
    i + |pat| <= |s| && s[i..i + |pat|] == pat
  }

  lemma OccursShift(s: string, pat: string)
    requires s != []
    ensures forall j: nat :: OccursAt(s[1..], pat, j) <==> OccursAt(s, pat, j + 1)
    ensures forall j: nat :: 0 < j ==> (OccursAt(s, pat, j) <==> OccursAt(s[1..], pat, j - 1))
  {
    forall j: nat
      ensures OccursAt(s[1..], pat, j) <==> OccursAt(s, pat, j + 1)
    {
      if j + 1 + |pat| <= |s| {
        assert s[1..][j..j + |pat|] == s[j + 1..j + 1 + |pat|];
      }
    }
  }

  /** The first index at which `pat` occurs in `s` (Rust's `str::find` with a `&str`). */
  function Find(s: string, pat: string): (r: Option<nat>)
    ensures r.Some? ==> OccursAt(s, pat, r.value)
    ensures r.Some? ==> forall j: nat :: j < r.value ==> !OccursAt(s, pat, j)
    ensures r.None? ==> forall j: nat :: !OccursAt(s, pat, j)
    decreases |s|
  {
    if |pat| > |s| then
      assert forall j: nat :: !OccursAt(s, pat, j);
      None
    else if s[..|pat|] == pat then
      assert s[0..|pat|] == s[..|pat|];
      Some(0)
    else
      assert s[0..|pat|] == s[..|pat|];
      OccursShift(s, pat);
      match Find(s[1..], pat)
      case None => None
      case Some(i) => Some(i + 1)
  }

  /** Rust's `str::contains` with a `&str` pattern. */
  predicate Contains(s: string, pat: string) {
    Find(s, pat).Some?
  }

  lemma ContainsInfix(a: string, pat: string, b: string)
    ensures Contains(a + pat + b, pat)
  {
    var s := a + pat + b;
    assert s[|a|..|a| + |pat|] == pat;
    assert OccursAt(s, pat, |a|);
  }

  /** A string that lacks one of the pattern's characters cannot contain the pattern. */
  lemma NotContainsMissingChar(s: string, pat: string, k: nat)
    requires k < |pat| && pat[k] !in s
    ensures !Contains(s, pat)
  {
    forall j: nat
      ensures !OccursAt(s, pat, j)
    {
      if j + |pat| <= |s| {
        assert s[j..j + |pat|][k] == s[j + k];
      }
    }
  }

  // ---------------------------------------------------------------------------
  // Replacement (Rust's `str::replace`: every non-overlapping match, left to right)

  function Replace(s: string, pat: string, rep: string): (r: string)
    requires pat != []
    ensures pat[0] !in s ==> r == s
    ensures |rep| == |pat| ==> |r| == |s|
    decreases |s|
  {
    if |s| < |pat| then s
    else if s[..|pat|] == pat then rep + Replace(s[|pat|..], pat, rep)
    else [s[0]] + Replace(s[1..], pat, rep)
  }

  lemma ReplaceStep(a: string, b: string, pat: string, rep: string)
    requires pat != [] && a != [] && a[0] != pat[0]
    ensures |a + b| < |pat| ==> Replace(a + b, pat, rep) == a + b && Replace(b, pat, rep) == b
    ensures |a + b| >= |pat| ==> Replace(a + b, pat, rep) == [a[0]] + Replace(a[1..] + b, pat, rep)
  {
    var s := a + b;
    if |s| >= |pat| {
      assert s[..|pat|][0] == a[0];
      assert s[1..] == a[1..] + b;
    }
  }

  /** Text free of the pattern's first character passes through a replacement unchanged. */
  lemma {:induction false} ReplaceSkipFree(a: string, b: string, pat: string, rep: string)
    requires pat != [] && pat[0] !in a
    ensures Replace(a + b, pat, rep) == a + Replace(b, pat, rep)
    decreases |a|
  {
    if a == [] {
      assert a + b == b;
    } else {
      assert a[0] != pat[0] by {
        assert a[0] in a;
      }
      if |a + b| >= |pat| {
        var a' := a[1..];
        assert pat[0] !in a' by {
          assert forall i :: 0 <= i < |a'| ==> a'[i] == a[i + 1];
        }
        var tail := Replace(b, pat, rep);
        calc {
          Replace(a + b, pat, rep);
          == { ReplaceStep(a, b, pat, rep); }
          [a[0]] + Replace(a' + b, pat, rep);
          == { ReplaceSkipFree(a', b, pat, rep); }
          [a[0]] + (a' + tail);
          == { assert a == [a[0]] + a'; }
          a + tail;
        }
      } else {
        ReplaceStep(a, b, pat, rep);
      }
    }
  }

  lemma ReplaceHit(b: string, pat: string, rep: string)
    requires pat != []
    ensures Replace(pat + b, pat, rep) == rep + Replace(b, pat, rep)
  {
    var s := pat + b;
    assert s[..|pat|] == pat;
    assert s[|pat|..] == b;
  }

  /** A different placeholder of the same length, whose first character is the only one it shares
      position-wise with the pattern's opening character, passes through unchanged. */
  lemma ReplaceSkipOther(h: string, b: string, pat: string, rep: string)
    requires pat != [] && |h| == |pat| && h != pat && pat[0] !in h[1..]
    ensures Replace(h + b, pat, rep) == h + Replace(b, pat, rep)
  {
    var s := h + b;
    var tail := Replace(b, pat, rep);
    calc {
      Replace(s, pat, rep);
      == { assert s[..|pat|] == h; assert s[1..] == h[1..] + b; }
      [h[0]] + Replace(h[1..] + b, pat, rep);
      == { ReplaceSkipFree(h[1..], b, pat, rep); }
      [h[0]] + (h[1..] + tail);
      == { assert h == [h[0]] + h[1..]; }
      h + tail;
    }
  }

  lemma ReplaceEmpty(pat: string, rep: string)
    requires pat != []
    ensures Replace("", pat, rep) == ""
  {
  }

  // ---------------------------------------------------------------------------
  // Splitting on a character (Rust's `str::split(char)`) and joining back

  function SplitOn(s: string, c: char): (r: seq<string>)
    ensures |r| >= 1
    ensures forall i :: 0 <= i < |r| ==> c !in r[i]
    decreases |s|
  {
    match IndexOf(s, c)
    case None => [s]
    case Some(i) => [s[..i]] + SplitOn(s[i + 1..], c)
  }

  /** Pieces glued with `c` between neighbours (Rust's `join` with a one-character separator). */
  function JoinWith(parts: seq<string>, c: char): string
    requires |parts| >= 1
  {
    if |parts| == 1 then parts[0] else parts[0] + [c] + JoinWith(parts[1..], c)
  }

  lemma {:induction false} IndexOfConcat(a: string, rest: string, c: char)
    requires c !in a
    ensures IndexOf(a + [c] + rest, c) == Some(|a|)
    decreases |a|
  {
    if a != [] {
      assert (a + [c] + rest)[1..] == a[1..] + [c] + rest;
      IndexOfConcat(a[1..], rest, c);
    }
  }

  lemma SplitOnCons(a: string, rest: string, c: char)
    requires c !in a
    ensures SplitOn(a + [c] + rest, c) == [a] + SplitOn(rest, c)
  {
    var s := a + [c] + rest;
    IndexOfConcat(a, rest, c);
    assert s[..|a|] == a;
    assert s[|a| + 1..] == rest;
  }

  /** Splitting undoes joining when no piece holds the separator. */
  lemma {:induction false} SplitOnJoin(parts: seq<string>, c: char)
    requires |parts| >= 1
    requires forall i :: 0 <= i < |parts| ==> c !in parts[i]
    ensures SplitOn(JoinWith(parts, c), c) == parts
    decreases |parts|
  {
    if |parts| == 1 {
      assert IndexOf(parts[0], c).None?;
    } else {
      SplitOnJoin(parts[1..], c);
      SplitOnCons(parts[0], JoinWith(parts[1..], c), c);
      assert parts == [parts[0]] + parts[1..];
    }
  }

  /** Joining undoes splitting: no character of the input is lost or invented. */
  lemma {:induction false} JoinSplitOn(s: string, c: char)
    ensures JoinWith(SplitOn(s, c), c) == s
    decreases |s|
  {
    match IndexOf(s, c)
    case None =>
    case Some(i) =>
      var tail := SplitOn(s[i + 1..], c);
      assert SplitOn(s, c) == [s[..i]] + tail;
      assert ([s[..i]] + tail)[1..] == tail;
      assert JoinWith(SplitOn(s, c), c) == s[..i] + [c] + JoinWith(tail, c);
      JoinSplitOn(s[i + 1..], c);
      assert s == s[..i] + [c] + s[i + 1..];
  }

  // ---------------------------------------------------------------------------
  // Splitting on whitespace (Rust's `str::split_whitespace`)

  /** Length of the leading run of non-whitespace characters. */
  function TokenEnd(s: string): (n: nat)
    ensures n <= |s|
    ensures NoWhitespace(s[..n])
    ensures n < |s| ==> IsWhitespace(s[n])
    decreases |s|
  {
    if s == [] || IsWhitespace(s[0]) then 0
    else
      var m := TokenEnd(s[1..]);
      assert s[..m + 1] == [s[0]] + s[1..][..m];
      m + 1
  }

  function SplitWhitespace(s: string): (r: seq<string>)
    ensures forall i :: 0 <= i < |r| ==> r[i] != [] && NoWhitespace(r[i])
    decreases |s|
  {
    if s == [] then []
    else if IsWhitespace(s[0]) then SplitWhitespace(s[1..])
    else
      var n := TokenEnd(s);
      [s[..n]] + SplitWhitespace(s[n..])
  }

  /** The first whitespace-separated token, or "" when there is none
      (`split_whitespace().next().unwrap_or("")`). */
  function FirstToken(s: string): (t: string)
    ensures NoWhitespace(t)
  {
    var tokens := SplitWhitespace(s);
    if tokens == [] then "" else tokens[0]
  }

  predicate IsToken(t: string) {
    t != [] && NoWhitespace(t)
  }

  /** Printable ASCII other than the space is never whitespace. */
  lemma VisibleToken(t: string)
    requires t != [] && forall i :: 0 <= i < |t| ==> '!' <= t[i] <= '~'
    ensures IsToken(t)
  {
  }

  lemma {:induction false} TokenEndOf(t: string, rest: string)
    requires NoWhitespace(t)
    requires rest == [] || IsWhitespace(rest[0])
    ensures TokenEnd(t + rest) == |t|
    decreases |t|
  {
    if t != [] {
      assert (t + rest)[1..] == t[1..] + rest;
      TokenEndOf(t[1..], rest);
    }
  }

  lemma SplitWhitespaceCons(t: string, rest: string)
    requires IsToken(t)
    requires rest == [] || IsWhitespace(rest[0])
    ensures SplitWhitespace(t + rest) == [t] + SplitWhitespace(rest)
  {
    TokenEndOf(t, rest);
    var s := t + rest;
    assert s[..|t|] == t;
    assert s[|t|..] == rest;
  }

  /** A command line assembled with single spaces splits back into exactly its tokens. */
  lemma {:induction false} SplitWhitespaceJoin(tokens: seq<string>)
    requires |tokens| >= 1
    requires forall i :: 0 <= i < |tokens| ==> IsToken(tokens[i])
    ensures SplitWhitespace(JoinWith(tokens, ' ')) == tokens
    decreases |tokens|
  {
    if |tokens| == 1 {
      SplitWhitespaceCons(tokens[0], "");
      assert tokens[0] + "" == tokens[0];
    } else {
      var rest := JoinWith(tokens[1..], ' ');
      SplitWhitespaceCons(tokens[0], [' '] + rest);
      assert tokens[0] + [' '] + rest == tokens[0] + ([' '] + rest);
      assert ([' '] + rest)[1..] == rest;
      SplitWhitespaceJoin(tokens[1..]);
      assert tokens == [tokens[0]] + tokens[1..];
    }
  }

  // ---------------------------------------------------------------------------
  // Lines (Rust's `str::lines`: split at '\n', drop one '\r' before it, no final empty line)

  function DropCarriageReturn(line: string): string {
    if line != [] && line[|line| - 1] == '\r' then line[..|line| - 1] else line
  }

  function Lines(s: string): (r: seq<string>)
    ensures forall i :: 0 <= i < |r| ==> '\n' !in r[i]
    decreases |s|
  {
    if s == [] then []
    else
      match IndexOf(s, '\n')
      case None => [s]
      case Some(i) =>
        assert '\n' !in DropCarriageReturn(s[..i]) by {
          if s[..i] != [] && s[..i][|s[..i]| - 1] == '\r' {
            assert DropCarriageReturn(s[..i]) == s[..i - 1];
            assert forall k :: 0 <= k < i - 1 ==> s[..i - 1][k] == s[..i][k];
          }
        }
        [DropCarriageReturn(s[..i])] + Lines(s[i + 1..])
  }

  /** Lines ended by '\n' come back one by one. */
  lemma LinesCons(line: string, rest: string)
    requires '\n' !in line && (line == [] || line[|line| - 1] != '\r')
    ensures Lines(line + "\n" + rest) == [line] + Lines(rest)
  {
    var s := line + "\n" + rest;
    assert s == line + ['\n'] + rest;
    IndexOfConcat(line, rest, '\n');
    assert s[..|line|] == line;
    assert s[|line| + 1..] == rest;
  }

  // ---------------------------------------------------------------------------
  // Trimming (Rust's `str::trim`)

  function TrimStart(s: string): (r: string)
    ensures |r| <= |s| && r == s[|s| - |r|..]
    ensures r == [] || !IsWhitespace(r[0])
    ensures AllWhitespace(s[..|s| - |r|])
    decreases |s|
  {
    if s != [] && IsWhitespace(s[0]) then
      var r := TrimStart(s[1..]);
      assert s[..|s| - |r|] == [s[0]] + s[1..][..|s| - 1 - |r|];
      r
    else s
  }

  function TrimEnd(s: string): (r: string)
    ensures |r| <= |s| && r == s[..|r|]
    ensures r == [] || !IsWhitespace(r[|r| - 1])
    ensures AllWhitespace(s[|r|..])
    decreases |s|
  {
    if s != [] && IsWhitespace(s[|s| - 1]) then
      var r := TrimEnd(s[..|s| - 1]);
      assert s[|r|..] == s[..|s| - 1][|r|..] + [s[|s| - 1]];
      r
    else s
  }

  function Trim(s: string): (r: string)
    ensures r == [] || (!IsWhitespace(r[0]) && !IsWhitespace(r[|r| - 1]))
  {
    TrimEnd(TrimStart(s))
  }

  lemma {:induction false} TrimStartOf(pre: string, s: string)
    requires AllWhitespace(pre)
    requires s == [] || !IsWhitespace(s[0])
    ensures TrimStart(pre + s) == s
    decreases |pre|
  {
    if pre != [] {
      assert (pre + s)[1..] == pre[1..] + s;
      TrimStartOf(pre[1..], s);
    }
  }

  lemma {:induction false} TrimEndOf(s: string, post: string)
    requires AllWhitespace(post)
    requires s == [] || !IsWhitespace(s[|s| - 1])
    ensures TrimEnd(s + post) == s
    decreases |post|
  {
    if post != [] {
      var p := post[..|post| - 1];
      assert (s + post)[..|s + post| - 1] == s + p;
      TrimEndOf(s, p);
    }
  }

  /** Trimming removes exactly the surrounding whitespace, e.g. the newline `uname -r` prints. */
  lemma TrimSurrounded(pre: string, s: string, post: string)
    requires AllWhitespace(pre) && AllWhitespace(post)
    requires s == [] || (!IsWhitespace(s[0]) && !IsWhitespace(s[|s| - 1]))
    ensures Trim(pre + s + post) == s
  {
    if s == [] {
      assert pre + s + post == pre + post;
      TrimStartOf(pre + post, "");
      assert pre + post + "" == pre + post;
    } else {
      assert pre + s + post == pre + (s + post);
      TrimStartOf(pre, s + post);
      TrimEndOf(s, post);
    }
  }

  // ---------------------------------------------------------------------------
  // Decimal numbers (Rust's `usize::from_str` on a 64-bit target, and `to_string`)

  const USIZE_MAX: nat := 0xFFFF_FFFF_FFFF_FFFF

  function DigitValue(c: char): nat
    requires IsDigit(c)
  {
    c as int - '0' as int
  }

  function DigitsValue(s: string): nat
    requires AllDigits(s)
  {
    if s == [] then 0 else 10 * DigitsValue(s[..|s| - 1]) + DigitValue(s[|s| - 1])
  }

  /** Rust's `parse::<usize>()`: an optional '+', then at least one ASCII digit, within range. */
  function ParseUsize(s: string): (r: Option<nat>)
    ensures r.Some? ==> r.value <= USIZE_MAX
    ensures s == [] || s == "+" ==> r.None?
  {
    var digits := if s != [] && s[0] == '+' then s[1..] else s;
    if digits == [] || !AllDigits(digits) then None
    else
      var v := DigitsValue(digits);
      if v > USIZE_MAX then None else Some(v)
  }

  function DigitChar(d: nat): (c: char)
    requires d < 10
    ensures IsDigit(c) && DigitValue(c) == d
  {
    ('0' as int + d) as char
  }

  /** Rust's `to_string` on an unsigned integer: canonical decimal. */
  function NatToString(n: nat): (s: string)
    ensures s != [] && AllDigits(s)
    ensures DigitsValue(s) == n
    ensures s[0] == '0' ==> n == 0
    decreases n
  {
    if n < 10 then [DigitChar(n)]
    else
      var t := NatToString(n / 10);
      var s := t + [DigitChar(n % 10)];
      assert s[..|s| - 1] == t;
      s
  }

  /** Printing a number in range and parsing it back gives the number. */
  lemma ParseNatToString(n: nat)
    requires n <= USIZE_MAX
    ensures ParseUsize(NatToString(n)) == Some(n)
  {
  }

  /** A hyphen or a dot anywhere makes a number unparseable. */
  lemma ParseRejectsSeparator(s: string, k: nat)
    requires k < |s| && (s[k] == '-' || s[k] == '.')
    ensures ParseUsize(s) == None
  {
    var digits := if s != [] && s[0] == '+' then s[1..] else s;
    if s[0] == '+' {
      assert digits[k - 1] == s[k];
    } else {
      assert digits[k] == s[k];
    }
  }

  lemma NatToStringPlain(n: nat)
    ensures '-' !in NatToString(n) && '.' !in NatToString(n)
    ensures '{' !in NatToString(n) && NoWhitespace(NatToString(n))
  {
    var s := NatToString(n);
    assert forall i :: 0 <= i < |s| ==> IsDigit(s[i]);
  }
}
