/**
 * Kernel package resolution of src/utils.rs and src/install_cuda.rs: reading `(patch, micro)` out of
 * a kernel image package name, choosing the newest candidate from the package index, and spelling
 * the wanted version and the image and headers package names from their `{placeholder}` templates.
 */
module Kernel {
  import opened Wrappers
  import opened Text

  // ---------------------------------------------------------------------------
  // parse_kernel_package

  /** The text between `prefix` and `suffix`: everything after the prefix when the name ends with
      the suffix, otherwise everything up to the suffix's first occurrence after the prefix. */
  function VersionPart(package: string, prefix: string, suffix: string): (r: Option<string>)
    requires StartsWith(package, prefix)
    ensures r.None? <==> !Contains(package[|prefix|..], suffix)
    ensures r.Some? ==> StartsWith(package, prefix + r.value + suffix)
  {
    var rest := package[|prefix|..];
    if EndsWith(rest, suffix) then
      var v := rest[..|rest| - |suffix|];
      SuffixAtEnd(rest, suffix);
      KeepBefore(package, prefix, v, suffix);
      Some(v)
    else
      match Find(rest, suffix)
      case Some(e) =>
        var v := rest[..e];
        SuffixFound(rest, suffix, e);
        KeepBefore(package, prefix, v, suffix);
        Some(v)
      case None => None
  }

  lemma SuffixAtEnd(rest: string, suffix: string)
    requires EndsWith(rest, suffix)
    ensures Contains(rest, suffix) && StartsWith(rest, rest[..|rest| - |suffix|] + suffix)
  {
    var v := rest[..|rest| - |suffix|];
    assert rest == v + suffix + "";
    ContainsInfix(v, suffix, "");
  }

  lemma SuffixFound(rest: string, suffix: string, e: nat)
    requires OccursAt(rest, suffix, e)
    ensures e <= |rest| && StartsWith(rest, rest[..e] + suffix)
  {
    assert rest[..e + |suffix|] == rest[..e] + rest[e..e + |suffix|];
  }

  lemma KeepBefore(package: string, prefix: string, v: string, suffix: string)
    requires StartsWith(package, prefix) && StartsWith(package[|prefix|..], v + suffix)
    ensures StartsWith(package, prefix + v + suffix)
  {
    var n := |prefix| + |v| + |suffix|;
    assert package[..n] == package[..|prefix|] + package[|prefix|..][..|v| + |suffix|];
  }

  /** `(patch, micro)` of a version text `major.minor.patch[...]-micro`: exactly one '-', at least
      three '.'-separated fields before it, and decimal numbers in the third field and after the '-'. */
  function VersionFields(v: string): (r: Option<(nat, nat)>)
    ensures r.Some? ==> r.value.0 <= USIZE_MAX && r.value.1 <= USIZE_MAX
    ensures '-' !in v || '.' !in v ==> r.None?
  {
    var parts := SplitOn(v, '-');
    if |parts| != 2 then
      assert '-' !in v ==> |parts| == 1 by {
        if '-' !in v { assert IndexOf(v, '-').None?; }
      }
      None
    else
      var numbers := SplitOn(parts[0], '.');
      if |numbers| < 3 then None
      else
        assert '.' in v by {
          SplitOnHead(v, '-');
          SplitOnHead(parts[0], '.');
          var k := |numbers[0]|;
          assert parts[0][k] == '.' && v[k] == parts[0][k];
        }
        match (ParseUsize(numbers[2]), ParseUsize(parts[1]))
        case (Some(patch), Some(micro)) => Some((patch, micro))
        case _ => None
  }

  /** `parse_kernel_package(package, prefix, suffix)`. */
  function ParseKernelPackage(package: string, prefix: string, suffix: string): (r: Option<(nat, nat)>)
    ensures r.Some? ==> r.value.0 <= USIZE_MAX && r.value.1 <= USIZE_MAX
    ensures !StartsWith(package, prefix) || !Contains(package, suffix) ==> r.None?
    ensures r.Some? ==> VersionPart(package, prefix, suffix).Some?
  {
    if !StartsWith(package, prefix) || !Contains(package, suffix) then None
    else
      match VersionPart(package, prefix, suffix)
      case None => None
      case Some(v) => VersionFields(v)
  }

  /** The first piece of a split is a prefix of the text; when there are more pieces, the separator
      follows it and the rest is the split of what comes after. */
  lemma SplitOnHead(s: string, c: char)
    ensures StartsWith(s, SplitOn(s, c)[0])
    ensures |SplitOn(s, c)| > 1 ==>
              |SplitOn(s, c)[0]| < |s| && s[|SplitOn(s, c)[0]|] == c
              && SplitOn(s, c)[1..] == SplitOn(s[|SplitOn(s, c)[0]| + 1..], c)
  {
    match IndexOf(s, c)
    case None =>
    case Some(i) =>
      assert SplitOn(s, c) == [s[..i]] + SplitOn(s[i + 1..], c);
  }

  /** A name made of the prefix, a version text and the suffix passes the guards and yields that
      version text. */
  lemma VersionPartOf(prefix: string, v: string, suffix: string)
    ensures StartsWith(prefix + v + suffix, prefix) && Contains(prefix + v + suffix, suffix)
    ensures VersionPart(prefix + v + suffix, prefix, suffix) == Some(v)
  {
    var package := prefix + v + suffix;
    assert package[..|prefix|] == prefix;
    ContainsInfix(prefix + v, suffix, "");
    assert package == prefix + v + suffix + "";
    var rest := package[|prefix|..];
    assert rest == v + suffix;
    assert rest[..|rest| - |suffix|] == v;
  }

  /** Two pieces around a single separator split back into those pieces. */
  lemma SplitTwo(a: string, b: string, c: char)
    requires c !in a && c !in b
    ensures SplitOn(a + [c] + b, c) == [a, b]
  {
    SplitOnCons(a, b, c);
    assert IndexOf(b, c).None?;
  }

  lemma SplitThree(a: string, b: string, d: string, c: char)
    requires c !in a && c !in b && c !in d
    ensures SplitOn(a + [c] + b + [c] + d, c) == [a, b, d]
  {
    assert a + [c] + b + [c] + d == a + [c] + (b + [c] + d);
    SplitOnCons(a, b + [c] + d, c);
    SplitTwo(b, d, c);
  }

  /** `major.minor.patch-micro` yields its patch and micro. */
  lemma VersionFieldsOf(major: string, minor: string, patch: nat, micro: nat)
    requires '-' !in major && '-' !in minor && '.' !in major && '.' !in minor
    requires patch <= USIZE_MAX && micro <= USIZE_MAX
    ensures VersionFields(major + "." + minor + "." + NatToString(patch) + "-" + NatToString(micro))
            == Some((patch, micro))
  {
    var p, m := NatToString(patch), NatToString(micro);
    NatToStringPlain(patch);
    NatToStringPlain(micro);
    var head := major + "." + minor + "." + p;
    assert head == major + ['.'] + minor + ['.'] + p;
    SplitThree(major, minor, p, '.');
    assert '-' !in head;
    SplitTwo(head, m, '-');
    assert head + "-" + m == head + ['-'] + m;
    ParseNatToString(patch);
    ParseNatToString(micro);
  }

  /** Completeness: every name spelled `prefix major.minor.patch-micro suffix` yields its patch and
      micro, for numbers that fit a `usize`, whatever the prefix and the suffix. */
  lemma ParseWellFormed(prefix: string, major: string, minor: string, patch: nat, micro: nat,
                        suffix: string)
    requires '-' !in major && '-' !in minor && '.' !in major && '.' !in minor
    requires patch <= USIZE_MAX && micro <= USIZE_MAX
    ensures ParseKernelPackage(prefix + major + "." + minor + "." + NatToString(patch) + "-"
                               + NatToString(micro) + suffix, prefix, suffix) == Some((patch, micro))
  {
    var v := major + "." + minor + "." + NatToString(patch) + "-" + NatToString(micro);
    assert prefix + major + "." + minor + "." + NatToString(patch) + "-" + NatToString(micro) + suffix
        == prefix + v + suffix;
    VersionPartOf(prefix, v, suffix);
    VersionFieldsOf(major, minor, patch, micro);
  }

  /** A text that splits into two pieces is those pieces around the separator. */
  lemma JoinedTwo(s: string, c: char)
    requires |SplitOn(s, c)| == 2
    ensures s == SplitOn(s, c)[0] + [c] + SplitOn(s, c)[1]
  {
    var parts := SplitOn(s, c);
    JoinSplitOn(s, c);
    assert parts[1..] == [parts[1]];
  }

  /** Three or more pieces joined: the first three around separators, then the rest, which is empty
      or starts with the separator. */
  lemma JoinThree(pieces: seq<string>, c: char) returns (more: string)
    requires |pieces| >= 3
    ensures JoinWith(pieces, c) == pieces[0] + [c] + pieces[1] + [c] + pieces[2] + more
    ensures more == [] || more[0] == c
  {
    var p0, p1, p2 := pieces[0], pieces[1], pieces[2];
    var tail := pieces[2..];
    assert pieces[1..][1..] == tail;
    if |pieces| == 3 {
      more := "";
    } else {
      more := [c] + JoinWith(pieces[3..], c);
      assert tail[1..] == pieces[3..];
    }
    var j2 := JoinWith(tail, c);
    assert j2 == p2 + more;
    var j1 := JoinWith(pieces[1..], c);
    assert j1 == p1 + [c] + j2;
    assert JoinWith(pieces, c) == p0 + [c] + j1;
    assert p0 + [c] + (p1 + [c] + (p2 + more)) == p0 + [c] + p1 + [c] + p2 + more;
  }

  /** A text that splits into three or more pieces is the first three around separators, followed
      by the rest, which is empty or starts with the separator. */
  lemma JoinedThree(s: string, c: char) returns (more: string)
    requires |SplitOn(s, c)| >= 3
    ensures s == SplitOn(s, c)[0] + [c] + SplitOn(s, c)[1] + [c] + SplitOn(s, c)[2] + more
    ensures more == [] || more[0] == c
  {
    JoinSplitOn(s, c);
    more := JoinThree(SplitOn(s, c), c);
  }

  /** Soundness of the field reading: a version text that yields `(patch, micro)` is
      `a.b.c<more>-m` with no further '-', `c` reading as the patch and `m` as the micro. */
  lemma VersionFieldsSound(v: string) returns (a: string, b: string, c: string, more: string, m: string)
    requires VersionFields(v).Some?
    ensures v == a + "." + b + "." + c + more + "-" + m
    ensures '.' !in a && '.' !in b && '.' !in c && (more == [] || more[0] == '.')
    ensures '-' !in a + "." + b + "." + c + more && '-' !in m
    ensures ParseUsize(c) == Some(VersionFields(v).value.0) && ParseUsize(m) == Some(VersionFields(v).value.1)
  {
    var parts := SplitOn(v, '-');
    JoinedTwo(v, '-');
    var numbers := SplitOn(parts[0], '.');
    more := JoinedThree(parts[0], '.');
    a, b, c, m := numbers[0], numbers[1], numbers[2], parts[1];
    assert parts[0] == a + "." + b + "." + c + more;
  }

  /** Soundness: a name that yields `(patch, micro)` is the prefix, then a version text
      `a.b.c<more>-m` whose `c` reads as the patch and `m` as the micro, then the suffix and possibly
      more text. */
  lemma ParseSound(package: string, prefix: string, suffix: string)
      returns (a: string, b: string, c: string, more: string, m: string)
    requires ParseKernelPackage(package, prefix, suffix).Some?
    ensures StartsWith(package, prefix + (a + "." + b + "." + c + more + "-" + m) + suffix)
    ensures '.' !in a && '.' !in b && '.' !in c && (more == [] || more[0] == '.')
    ensures '-' !in a + "." + b + "." + c + more && '-' !in m
    ensures ParseUsize(c) == Some(ParseKernelPackage(package, prefix, suffix).value.0)
    ensures ParseUsize(m) == Some(ParseKernelPackage(package, prefix, suffix).value.1)
  {
    var v := VersionPart(package, prefix, suffix).value;
    a, b, c, more, m := VersionFieldsSound(v);
  }

  /** The example of the doc comment: prefix `linux-image-` and suffix `-aws` read `(0, 1015)` out
      of `linux-image-5.15.0-1015-aws`. */
  lemma DocExample()
    ensures ParseKernelPackage("linux-image-5.15.0-1015-aws", "linux-image-", "-aws") == Some((0, 1015))
  {
    DocNumbers();
    DocName();
    ParseWellFormed("linux-image-", "5", "15", 0, 1015, "-aws");
  }

  lemma DocNumbers()
    ensures NatToString(0) == "0" && NatToString(1015) == "1015"
  {
    assert NatToString(1) == "1";
    assert NatToString(10) == "10";
    assert NatToString(101) == "101";
  }

  lemma DocName()
    ensures "linux-image-" + "5" + "." + "15" + "." + "0" + "-" + "1015" + "-aws" == "linux-image-5.15.0-1015-aws"
  {
  }

  /** A version text without a '-' never parses, whatever surrounds it. */
  lemma ParseNeedsHyphen(package: string, prefix: string, suffix: string)
    requires StartsWith(package, prefix) && VersionPart(package, prefix, suffix).Some?
    requires '-' !in VersionPart(package, prefix, suffix).value
    ensures ParseKernelPackage(package, prefix, suffix).None?
  {
  }

  // ---------------------------------------------------------------------------
  // Choosing the newest candidate

  /** `a` comes after `b` in the order of `(patch, micro)`: patch first, then micro. */
  predicate Newer(a: (nat, nat), b: (nat, nat)) {
    a.0 > b.0 || (a.0 == b.0 && a.1 > b.1)
  }

  /**
   * The selection loop of `install_dependencies_debian` over the parse results of the index lines,
   * in order, starting from `(0, 0)`: a result replaces the current one only when it is newer.
   */
  function Newest(found: seq<Option<(nat, nat)>>): (best: (nat, nat))
    ensures forall i :: 0 <= i < |found| && found[i].Some? ==> !Newer(found[i].value, best)
    ensures best == (0, 0) || exists i :: 0 <= i < |found| && found[i] == Some(best)
    decreases |found|
  {
    if found == [] then (0, 0)
    else
      var earlier := found[..|found| - 1];
      var prev := Newest(earlier);
      assert forall i :: 0 <= i < |earlier| ==> earlier[i] == found[i];
      match found[|found| - 1]
      case Some(c) => if Newer(c, prev) then c else prev
      case None => prev
  }

  /** One more parse result replaces the selection exactly when it is newer. */
  lemma NewestAppend(found: seq<Option<(nat, nat)>>, next: Option<(nat, nat)>)
    ensures next.Some? && Newer(next.value, Newest(found)) ==> Newest(found + [next]) == next.value
    ensures !(next.Some? && Newer(next.value, Newest(found))) ==> Newest(found + [next]) == Newest(found)
  {
    assert (found + [next])[..|found|] == found;
  }

  /** Nothing parsed: the selection stays at `(0, 0)`. */
  lemma NewestOfNothing(found: seq<Option<(nat, nat)>>)
    requires forall i :: 0 <= i < |found| ==> found[i].None?
    ensures Newest(found) == (0, 0)
  {
  }

  /** The selection is the lexicographic maximum of the parsed pairs, which it is one of. */
  lemma NewestIsMaximum(found: seq<Option<(nat, nat)>>, i: nat)
    requires i < |found| && found[i].Some?
    ensures !Newer(found[i].value, Newest(found))
    ensures exists j :: 0 <= j < |found| && found[j] == Some(Newest(found))
  {
    var best := Newest(found);
    if best == (0, 0) {
      assert !Newer(found[i].value, best);
      assert found[i].value == (0, 0);
    }
  }

  // ---------------------------------------------------------------------------
  // The package index and the two candidate rules

  /** The first whitespace token of each line of `apt-cache search` output (its package name). */
  function IndexNames(packages: string): (names: seq<string>)
    ensures |names| == |Lines(packages)|
  {
    var lines := Lines(packages);
    seq(|lines|, i requires 0 <= i < |lines| => FirstToken(lines[i]))
  }

  /** The prefix the installer passes, `linux-image-{major}.{minor}`. */
  function CallerPrefix(major: string, minor: string): string {
    "linux-image-" + major + "." + minor
  }

  /** How the Debian archive names the kernel images of a release line. */
  function RealName(major: string, minor: string, patch: nat, micro: nat, suffix: string): string {
    "linux-image-" + major + "." + minor + "." + NatToString(patch) + "-" + NatToString(micro) + suffix
  }

  /** The parse results with the prefix as written. */
  function AsWrittenCandidates(names: seq<string>, major: string, minor: string, suffix: string)
    : (found: seq<Option<(nat, nat)>>)
    ensures |found| == |names|
  {
    seq(|names|, i requires 0 <= i < |names| => ParseKernelPackage(names[i], CallerPrefix(major, minor), suffix))
  }

  /** With the prefix as written, the name of a real image of the running release line never parses:
      the text left after the prefix is `.patch-micro`, whose part before '-' has only two
      '.'-fields. */
  lemma AsWrittenRejectsRealName(major: string, minor: string, patch: nat, micro: nat, suffix: string)
    ensures ParseKernelPackage(RealName(major, minor, patch, micro, suffix), CallerPrefix(major, minor),
                               suffix) == None
  {
    var p, m := NatToString(patch), NatToString(micro);
    NatToStringPlain(patch);
    NatToStringPlain(micro);
    var v := "." + p + "-" + m;
    assert RealName(major, minor, patch, micro, suffix) == CallerPrefix(major, minor) + v + suffix;
    VersionPartOf(CallerPrefix(major, minor), v, suffix);
    DotPatchFields(p, m);
  }

  /** `.patch-micro` has only two '.'-fields before its '-'. */
  lemma DotPatchFields(p: string, m: string)
    requires '-' !in p && '.' !in p && '-' !in m
    ensures VersionFields("." + p + "-" + m) == None
  {
    assert "." + p + "-" + m == ("." + p) + ['-'] + m;
    SplitTwo("." + p, m, '-');
    assert "." + p == [] + ['.'] + p;
    SplitTwo([], p, '.');
  }

  /** Hence, on an index listing only images of the running release line and packages outside it,
      the selection as written is always `(0, 0)`. */
  lemma AsWrittenSelectsZero(names: seq<string>, major: string, minor: string, suffix: string,
                             patches: seq<nat>, micros: seq<nat>)
    requires |patches| == |names| && |micros| == |names|
    requires forall i :: 0 <= i < |names| ==>
               names[i] == RealName(major, minor, patches[i], micros[i], suffix)
               || !StartsWith(names[i], CallerPrefix(major, minor))
    ensures Newest(AsWrittenCandidates(names, major, minor, suffix)) == (0, 0)
  {
    var found := AsWrittenCandidates(names, major, minor, suffix);
    forall i | 0 <= i < |found|
      ensures found[i].None?
    {
      if names[i] == RealName(major, minor, patches[i], micros[i], suffix) {
        AsWrittenRejectsRealName(major, minor, patches[i], micros[i], suffix);
      }
    }
    NewestOfNothing(found);
  }

  /** The rule the installer evidently intends: strip `linux-image-` (as in the doc comment) and keep
      only names of the running `major.minor` line. */
  function CandidateVersion(name: string, major: string, minor: string, suffix: string)
    : (r: Option<(nat, nat)>)
    ensures r.Some? ==> StartsWith(name, "linux-image-" + major + "." + minor + ".")
    ensures r.Some? ==> r == ParseKernelPackage(name, "linux-image-", suffix)
  {
    if StartsWith(name, "linux-image-" + major + "." + minor + ".") then
      ParseKernelPackage(name, "linux-image-", suffix)
    else None
  }

  /** Under the intended rule every real image of the running line yields its own numbers. */
  lemma CandidateVersionRealName(major: string, minor: string, patch: nat, micro: nat, suffix: string)
    requires '-' !in major && '-' !in minor && '.' !in major && '.' !in minor
    requires patch <= USIZE_MAX && micro <= USIZE_MAX
    ensures CandidateVersion(RealName(major, minor, patch, micro, suffix), major, minor, suffix)
            == Some((patch, micro))
  {
    var name := RealName(major, minor, patch, micro, suffix);
    var lead := "linux-image-" + major + "." + minor + ".";
    assert name == lead + (NatToString(patch) + "-" + NatToString(micro) + suffix);
    assert name[..|lead|] == lead;
    ParseWellFormed("linux-image-", major, minor, patch, micro, suffix);
  }

  /** The parse results under the intended rule. */
  function Candidates(names: seq<string>, major: string, minor: string, suffix: string)
    : (found: seq<Option<(nat, nat)>>)
    ensures |found| == |names|
  {
    seq(|names|, i requires 0 <= i < |names| => CandidateVersion(names[i], major, minor, suffix))
  }

  /** Under the intended rule the selection is the newest image of the running line in the index,
      and `(0, 0)` only when the index lists none newer. */
  lemma IntendedSelectsNewest(names: seq<string>, major: string, minor: string, suffix: string,
                              patches: seq<nat>, micros: seq<nat>, i: nat)
    requires '-' !in major && '-' !in minor && '.' !in major && '.' !in minor
    requires |patches| == |names| && |micros| == |names| && i < |names|
    requires patches[i] <= USIZE_MAX && micros[i] <= USIZE_MAX
    requires names[i] == RealName(major, minor, patches[i], micros[i], suffix)
    ensures !Newer((patches[i], micros[i]), Newest(Candidates(names, major, minor, suffix)))
    ensures exists j :: 0 <= j < |names|
              && CandidateVersion(names[j], major, minor, suffix) == Some(Newest(Candidates(names, major, minor, suffix)))
  {
    var found := Candidates(names, major, minor, suffix);
    CandidateVersionRealName(major, minor, patches[i], micros[i], suffix);
    assert found[i] == Some((patches[i], micros[i]));
    NewestIsMaximum(found, i);
    var j :| 0 <= j < |found| && found[j] == Some(Newest(found));
    assert CandidateVersion(names[j], major, minor, suffix) == found[j];
  }

  /** One more name adds its parse result at the end. */
  lemma CandidatesStep(names: seq<string>, i: nat, major: string, minor: string, suffix: string)
    requires i < |names|
    ensures Candidates(names[..i + 1], major, minor, suffix)
            == Candidates(names[..i], major, minor, suffix) + [CandidateVersion(names[i], major, minor, suffix)]
  {
  }

  /**
   * The selection loop, with the intended candidate rule: each line's first token is parsed and
   * replaces the current maximum when its `(patch, micro)` is newer.
   */
  method SelectNewest(packages: string, major: string, minor: string, suffix: string)
    returns (maxPatch: nat, maxMicro: nat)
    ensures (maxPatch, maxMicro) == Newest(Candidates(IndexNames(packages), major, minor, suffix))
  {
    var lines := Lines(packages);
    ghost var names := IndexNames(packages);
    maxPatch, maxMicro := 0, 0;
    for i := 0 to |lines|
      invariant (maxPatch, maxMicro) == Newest(Candidates(names[..i], major, minor, suffix))
    {
      var packageName := FirstToken(lines[i]);
      var next := CandidateVersion(packageName, major, minor, suffix);
      ghost var found := Candidates(names[..i], major, minor, suffix);
      assert Candidates(names[..i + 1], major, minor, suffix) == found + [next] by {
        assert packageName == names[i];
        CandidatesStep(names, i, major, minor, suffix);
      }
      NewestAppend(found, next);
      match next
      case Some((patch, micro)) =>
        if patch > maxPatch || (patch == maxPatch && micro > maxMicro) {
          maxPatch, maxMicro := patch, micro;
        }
      case None =>
    }
    assert names[..|lines|] == names;
  }

  // ---------------------------------------------------------------------------
  // `{placeholder}` templates and Rust's `str::replace`

  /** A template: literal text and `{name}` placeholders, front to back. */
  datatype Template = Done | Text(text: string, rest: Template) | Field(placeholder: string, rest: Template)

  function Render(t: Template): string {
    match t
    case Done => ""
    case Text(s, rest) => s + Render(rest)
    case Field(p, rest) => p + Render(rest)
  }

  /** A `{...}` placeholder of `width` characters: '{' occurs only at its start. */
  predicate IsPlaceholder(p: string, width: nat) {
    |p| == width && width > 0 && p[0] == '{' && '{' !in p[1..]
  }

  /** Text free of '{', and placeholders of one width. */
  predicate WellFormed(t: Template, width: nat) {
    match t
    case Done => true
    case Text(s, rest) => '{' !in s && WellFormed(rest, width)
    case Field(p, rest) => IsPlaceholder(p, width) && WellFormed(rest, width)
  }

  /** The template with every occurrence of one placeholder turned into text. */
  function Fill(t: Template, placeholder: string, value: string): Template {
    match t
    case Done => Done
    case Text(s, rest) => Text(s, Fill(rest, placeholder, value))
    case Field(p, rest) =>
      if p == placeholder then Text(value, Fill(rest, placeholder, value))
      else Field(p, Fill(rest, placeholder, value))
  }

  /** Replacing a placeholder in the rendered text fills that placeholder in the template, and
      leaves every other placeholder and all the text alone. */
  lemma {:induction false} ReplaceFills(t: Template, width: nat, placeholder: string, value: string)
    requires WellFormed(t, width) && IsPlaceholder(placeholder, width) && '{' !in value
    ensures Replace(Render(t), placeholder, value) == Render(Fill(t, placeholder, value))
    ensures WellFormed(Fill(t, placeholder, value), width)
  {
    match t
    case Done =>
      ReplaceEmpty(placeholder, value);
    case Text(s, rest) =>
      ReplaceFills(rest, width, placeholder, value);
      ReplaceSkipFree(s, Render(rest), placeholder, value);
    case Field(p, rest) =>
      ReplaceFills(rest, width, placeholder, value);
      if p == placeholder {
        ReplaceHit(Render(rest), placeholder, value);
      } else {
        ReplaceSkipOther(p, Render(rest), placeholder, value);
      }
  }

  const MajorField := "{major}"
  const MinorField := "{minor}"
  const PatchField := "{patch}"
  const MicroField := "{micro}"
  const VersionField := "{version}"

  /** The version template of `install_dependencies_debian`, the provider suffix appended. */
  function KernelVersionFormat(suffix: string): string {
    MajorField + "." + MinorField + "." + PatchField + "-" + MicroField + suffix
  }

  /** The wanted version: the template's placeholders replaced one after the other, as the source
      chains its four `replace` calls. When no value holds a '{', it is the installed-kernel probe
      `major.minor.patch-micro` followed by the suffix. */
  function WantedVersion(major: string, minor: string, patch: nat, micro: nat, suffix: string): (version: string)
    ensures '{' !in major && '{' !in minor && '{' !in suffix ==>
              version == RunningPin(major, minor, patch, micro) + suffix
  {
    var version := Replace(Replace(Replace(Replace(KernelVersionFormat(suffix), MajorField, major), MinorField, minor),
                                   PatchField, NatToString(patch)), MicroField, NatToString(micro));
    if '{' !in major && '{' !in minor && '{' !in suffix then
      var values := [major, minor, NatToString(patch), NatToString(micro)];
      NatToStringPlain(patch);
      NatToStringPlain(micro);
      RenderVersionTemplate(values, 0, suffix);
      RenderVersionTemplate(values, 4, suffix);
      VersionTemplateWellFormed(values, suffix);
      ReplaceFills(VersionTemplate(values, 0, suffix), 7, MajorField, major);
      FillVersionTemplate(values, 0, suffix);
      ReplaceFills(VersionTemplate(values, 1, suffix), 7, MinorField, minor);
      FillVersionTemplate(values, 1, suffix);
      ReplaceFills(VersionTemplate(values, 2, suffix), 7, PatchField, values[2]);
      FillVersionTemplate(values, 2, suffix);
      ReplaceFills(VersionTemplate(values, 3, suffix), 7, MicroField, values[3]);
      FillVersionTemplate(values, 3, suffix);
      version
    else version
  }

  /** The installed-kernel probe, `{major}.{minor}.{patch}-{micro}` through `format!`. */
  function RunningPin(major: string, minor: string, patch: nat, micro: nat): (pin: string)
    ensures '.' !in major && '.' !in minor ==> MajorMinor(pin) == Some((major, minor))
  {
    var tail := NatToString(patch) + "-" + NatToString(micro);
    var pin := major + "." + minor + "." + NatToString(patch) + "-" + NatToString(micro);
    if '.' !in major && '.' !in minor then
      assert pin == major + "." + minor + "." + tail;
      MajorMinorOf(major, minor, tail);
      pin
    else pin
  }

  /** The placeholder of slot `k` of the version template. */
  function FieldName(k: nat): string
    requires k < 4
  {
    if k == 0 then MajorField else if k == 1 then MinorField else if k == 2 then PatchField else MicroField
  }

  /** Slot `k`, filled with `values[k]` once the first `filled` slots are filled. */
  function Slot(values: seq<string>, filled: nat, k: nat, rest: Template): Template
    requires k < 4 && |values| == 4
  {
    if k < filled then Text(values[k], rest) else Field(FieldName(k), rest)
  }

  /** The version template with the first `filled` placeholders replaced by `values`. */
  function VersionTemplate(values: seq<string>, filled: nat, suffix: string): Template
    requires |values| == 4
  {
    Slot(values, filled, 0, Text(".", Slot(values, filled, 1, Text(".",
      Slot(values, filled, 2, Text("-", Slot(values, filled, 3, Text(suffix, Done))))))))
  }

  /** What slot `k` reads as: its value once filled, its placeholder before. */
  function SlotText(values: seq<string>, filled: nat, k: nat): string
    requires k < 4 && |values| == 4
  {
    if k < filled then values[k] else FieldName(k)
  }

  /** Rendering one filled or open slot. */
  lemma RenderSlot(values: seq<string>, filled: nat, k: nat, rest: Template)
    requires k < 4 && |values| == 4
    ensures Render(Slot(values, filled, k, rest)) == SlotText(values, filled, k) + Render(rest)
  {
  }

  /** Regrouping the rendered pieces of the version template. */
  lemma Regroup(a: string, b: string, c: string, d: string, suffix: string)
    ensures a + ("." + (b + ("." + (c + ("-" + (d + suffix)))))) == a + "." + b + "." + c + "-" + d + suffix
  {
  }

  /** The slots render to the four values, or to the four placeholders, between the separators. */
  lemma RenderVersionTemplate(values: seq<string>, filled: nat, suffix: string)
    requires |values| == 4 && (filled == 0 || filled == 4)
    ensures filled == 0 ==> Render(VersionTemplate(values, filled, suffix)) == KernelVersionFormat(suffix)
    ensures filled == 4 ==> (Render(VersionTemplate(values, filled, suffix))
                             == values[0] + "." + values[1] + "." + values[2] + "-" + values[3] + suffix)
  {
    var t7 := Text(suffix, Done);
    var t5 := Text("-", Slot(values, filled, 3, t7));
    var t3 := Text(".", Slot(values, filled, 2, t5));
    var t1 := Text(".", Slot(values, filled, 1, t3));
    RenderSlot(values, filled, 3, t7);
    RenderSlot(values, filled, 2, t5);
    RenderSlot(values, filled, 1, t3);
    RenderSlot(values, filled, 0, t1);
    var w0, w1, w2, w3 := SlotText(values, filled, 0), SlotText(values, filled, 1),
                          SlotText(values, filled, 2), SlotText(values, filled, 3);
    assert Render(VersionTemplate(values, filled, suffix))
        == w0 + ("." + (w1 + ("." + (w2 + ("-" + (w3 + suffix))))));
    Regroup(w0, w1, w2, w3, suffix);
  }

  /** Filling slot `k`'s placeholder fills that slot and leaves the others as they are. */
  lemma FillSlot(values: seq<string>, k: nat, j: nat, rest: Template)
    requires k < 4 && j < 4 && |values| == 4
    ensures Fill(Slot(values, k, j, rest), FieldName(k), values[k])
            == Slot(values, k + 1, j, Fill(rest, FieldName(k), values[k]))
  {
    if j > k {
      FieldNamesDistinct(j, k);
    }
  }

  lemma FieldNamesDistinct(j: nat, k: nat)
    requires j < 4 && k < 4 && j != k
    ensures FieldName(j) != FieldName(k)
  {
    assert FieldName(j)[1] != FieldName(k)[1] || FieldName(j)[2] != FieldName(k)[2]
        || FieldName(j)[3] != FieldName(k)[3];
  }

  lemma FieldNameIsPlaceholder(k: nat)
    requires k < 4
    ensures IsPlaceholder(FieldName(k), 7)
  {
  }

  /** An open slot in front of a well-formed template keeps it well formed. */
  lemma OpenSlotWellFormed(values: seq<string>, k: nat, rest: Template)
    requires k < 4 && |values| == 4 && WellFormed(rest, 7)
    ensures WellFormed(Slot(values, 0, k, rest), 7)
  {
    FieldNameIsPlaceholder(k);
  }

  /** Before any filling, the version template is well formed for seven-character placeholders. */
  lemma VersionTemplateWellFormed(values: seq<string>, suffix: string)
    requires |values| == 4 && '{' !in suffix
    ensures WellFormed(VersionTemplate(values, 0, suffix), 7)
  {
    var t7 := Text(suffix, Done);
    OpenSlotWellFormed(values, 3, t7);
    var t5 := Text("-", Slot(values, 0, 3, t7));
    OpenSlotWellFormed(values, 2, t5);
    var t3 := Text(".", Slot(values, 0, 2, t5));
    OpenSlotWellFormed(values, 1, t3);
    var t1 := Text(".", Slot(values, 0, 1, t3));
    OpenSlotWellFormed(values, 0, t1);
  }

  lemma FillVersionTemplate(values: seq<string>, k: nat, suffix: string)
    requires |values| == 4 && k < 4
    ensures Fill(VersionTemplate(values, k, suffix), FieldName(k), values[k]) == VersionTemplate(values, k + 1, suffix)
  {
    var f, v := FieldName(k), values[k];
    var t7 := Text(suffix, Done);
    assert Fill(t7, f, v) == t7;
    FillSlot(values, k, 3, t7);
    var t5 := Text("-", Slot(values, k, 3, t7));
    FillSlot(values, k, 2, t5);
    var t3 := Text(".", Slot(values, k, 2, t5));
    FillSlot(values, k, 1, t3);
    var t1 := Text(".", Slot(values, k, 1, t3));
    FillSlot(values, k, 0, t1);
  }

  /** `linux-image-{version}` with the version filled in. */
  function ImagePackage(version: string): (name: string)
    ensures '{' !in version ==> name == "linux-image-" + version
  {
    var name := Replace("linux-image-" + VersionField, VersionField, version);
    if '{' !in version then
      FillOne("linux-image-", version);
      name
    else name
  }

  /** `linux-headers-{version}` with the version filled in. */
  function HeadersPackage(version: string): (name: string)
    ensures '{' !in version ==> name == "linux-headers-" + version
  {
    var name := Replace("linux-headers-" + VersionField, VersionField, version);
    if '{' !in version then
      FillOne("linux-headers-", version);
      name
    else name
  }

  lemma VersionFieldIsPlaceholder()
    ensures IsPlaceholder(VersionField, 9)
  {
  }

  lemma FillOne(lead: string, version: string)
    requires '{' !in lead && '{' !in version
    ensures Replace(lead + VersionField, VersionField, version) == lead + version
  {
    var last := Field(VersionField, Done);
    var t := Text(lead, last);
    VersionFieldIsPlaceholder();
    assert WellFormed(last, 9);
    assert Render(last) == VersionField;
    assert Render(t) == lead + VersionField;
    ReplaceFills(t, 9, VersionField, version);
    var filled := Text(version, Done);
    assert Fill(last, VersionField, version) == filled;
    assert Render(filled) == version;
    assert Render(Fill(t, VersionField, version)) == lead + version;
  }

  // ---------------------------------------------------------------------------
  // Reading the running release

  /** The first two '.'-fields of the running release; `None` where the source's `unwrap` would
      panic, that is when the release has no '.'. */
  function MajorMinor(release: string): (r: Option<(string, string)>)
    ensures r.None? <==> '.' !in release
    ensures r.Some? ==> '.' !in r.value.0 && '.' !in r.value.1
    ensures r.Some? ==> StartsWith(release, r.value.0 + "." + r.value.1)
  {
    var parts := SplitOn(release, '.');
    FirstTwoFields(release);
    if |parts| < 2 then None else Some((parts[0], parts[1]))
  }

  /** A text splits on '.' into two or more fields exactly when it holds a '.', and then it starts
      with the first two fields joined by a '.'. */
  lemma FirstTwoFields(release: string)
    ensures |SplitOn(release, '.')| >= 2 <==> '.' in release
    ensures |SplitOn(release, '.')| >= 2 ==>
              StartsWith(release, SplitOn(release, '.')[0] + "." + SplitOn(release, '.')[1])
  {
    var parts := SplitOn(release, '.');
    match IndexOf(release, '.')
    case None =>
      assert parts == [release];
    case Some(k) =>
      var after := release[k + 1..];
      SplitAtFirst(release, '.', k);
      SplitOnHead(after, '.');
      PrefixAfterDot(release[..k], after, parts[1]);
  }

  lemma SplitAtFirst(s: string, c: char, k: nat)
    requires IndexOf(s, c) == Some(k)
    ensures k < |s| && s == s[..k] + [s[k]] + s[k + 1..]
    ensures SplitOn(s, c) == [s[..k]] + SplitOn(s[k + 1..], c)
  {
    var i := IndexOf(s, c).value;
    assert i == k;
    assert SplitOn(s, c) == [s[..i]] + SplitOn(s[i + 1..], c);
    Around(s, k);
  }

  lemma Around(s: string, k: nat)
    requires k < |s|
    ensures s == s[..k] + [s[k]] + s[k + 1..]
  {
  }

  lemma PrefixAfterDot(a: string, b: string, m: string)
    requires StartsWith(b, m)
    ensures StartsWith(a + "." + b, a + "." + m)
  {
    assert (a + "." + b)[..|a| + 1 + |m|] == a + "." + m;
  }

  /** A release of the usual shape `major.minor.rest` gives back its major and minor. */
  lemma MajorMinorOf(major: string, minor: string, rest: string)
    requires '.' !in major && '.' !in minor
    ensures MajorMinor(major + "." + minor + "." + rest) == Some((major, minor))
  {
    var release := major + "." + minor + "." + rest;
    assert release == major + ['.'] + (minor + ['.'] + rest);
    SplitOnCons(major, minor + ['.'] + rest, '.');
    SplitOnCons(minor, rest, '.');
  }
}
