/** Hand-written matchers for the six `std::regex` patterns the rules use,
    each searched the way `std::regex_search` does: the leftmost start
    position at which the pattern matches wins, and the capture is the one
    the backtracking engine settles on there (greedy `+` takes the longest
    run that still lets the rest match, lazy `+?` the shortest).
    Character classes follow the "C" locale: `\d` is '0'..'9', `\s` is one
    of " \t\n\v\f\r", and `.` is any character but '\n' and '\r'. */
module Patterns {
  import opened Strings

  predicate IsRegexSpace(c: char) {
    c == ' ' || c == '\t' || c == '\n' || c == '\U{B}' || c == '\U{C}' || c == '\r'
  }

  predicate IsLineTerminator(c: char) { c == '\n' || c == '\r' }

  predicate IsDigitOrDot(c: char) { IsDigit(c) || c == '.' }

  predicate IsNonSpace(c: char) { !IsRegexSpace(c) }

  /** End of the longest run of `cls` characters starting at `i`. */
  function RunEnd(s: string, i: nat, cls: char -> bool): (e: nat)
    requires i <= |s|
    ensures i <= e <= |s|
    ensures forall k :: i <= k < e ==> cls(s[k])
    ensures e < |s| ==> !cls(s[e])
    decreases |s| - i
  {
    if i < |s| && cls(s[i]) then RunEnd(s, i + 1, cls) else i
  }

  /** A run written out explicitly is found again as the longest run. */
  lemma {:induction false} RunEndOf(pre: string, v: string, rest: string, cls: char -> bool)
    requires forall k :: 0 <= k < |v| ==> cls(v[k])
    requires rest == [] || !cls(rest[0])
    ensures RunEnd(pre + v + rest, |pre|, cls) == |pre| + |v|
    decreases |v|
  {
    var s := pre + v + rest;
    if v != [] {
      assert s == (pre + [v[0]]) + v[1..] + rest;
      RunEndOf(pre + [v[0]], v[1..], rest, cls);
    } else if rest != [] {
      assert s[|pre|] == rest[0];
    }
  }

  /** First `\s` character at or after `i`. */
  function NextSpace(s: string, i: nat): (r: Option<nat>)
    requires i <= |s|
    ensures r.Some? ==> i <= r.value < |s| && IsRegexSpace(s[r.value])
    ensures r.Some? ==> forall k :: i <= k < r.value ==> !IsRegexSpace(s[k])
    ensures r.None? ==> forall k :: i <= k < |s| ==> !IsRegexSpace(s[k])
  {
    var e := RunEnd(s, i, IsNonSpace);
    if e < |s| then Some(e) else None
  }

  /** `regex_search`: the capture at the leftmost start position, at or
      after `i`, where the pattern `at` matches. */
  function SearchFrom(s: string, at: (string, nat) -> Option<string>, i: nat): (r: Option<string>)
    ensures r.Some? ==> exists j :: i <= j <= |s| && at(s, j) == r
    ensures r.None? ==> forall j :: i <= j <= |s| ==> at(s, j).None?
    decreases |s| + 1 - i
  {
    if i > |s| then None
    else match at(s, i)
      case Some(c) => Some(c)
      case None => SearchFrom(s, at, i + 1)
  }

  function Search(s: string, at: (string, nat) -> Option<string>): Option<string> {
    SearchFrom(s, at, 0)
  }

  /** A match at position 0 is the leftmost one. */
  lemma SearchAtStart(s: string, at: (string, nat) -> Option<string>)
    requires at(s, 0).Some?
    ensures Search(s, at) == at(s, 0)
  {
  }

  /** A match found after a prefix free of matches is the one returned. */
  lemma {:induction false} SearchSkips(s: string, at: (string, nat) -> Option<string>, i: nat, j: nat)
    requires i <= j <= |s|
    requires forall k :: i <= k < j ==> at(s, k).None?
    ensures SearchFrom(s, at, i) == SearchFrom(s, at, j)
    decreases j - i
  {
    if i < j {
      SearchSkips(s, at, i + 1, j);
    }
  }

  /** `LSPosed version ([\d\.]+) ` at `i`: the longest run of digits and
      dots after the literal, which must be followed by a space. A shorter
      run cannot help since its next character is a digit or a dot. */
  function LsposedVersionAt(s: string, i: nat): (r: Option<string>)
    ensures r.Some? ==> OccursAt(s, "LSPosed version " + r.value + " ", i)
    ensures r.Some? ==> r.value != [] && forall k :: 0 <= k < |r.value| ==> IsDigitOrDot(r.value[k])
  {
    if !OccursAt(s, "LSPosed version ", i) then None
    else
      var p := i + 16;
      var e := RunEnd(s, p, IsDigitOrDot);
      if p < e < |s| && s[e] == ' ' then
        assert s[i..e + 1] == s[i..p] + s[p..e] + [' '];
        Some(s[p..e])
      else None
  }

  lemma LsposedVersionRoundTrip(v: string, rest: string)
    requires v != [] && forall k :: 0 <= k < |v| ==> IsDigitOrDot(v[k])
    ensures Search("LSPosed version " + v + " " + rest, LsposedVersionAt) == Some(v)
  {
    var s := "LSPosed version " + v + " " + rest;
    assert s == "LSPosed version " + v + (" " + rest);
    RunEndOf("LSPosed version ", v, " " + rest, IsDigitOrDot);
    assert s[..16] == "LSPosed version ";
    assert s[16 + |v|] == ' ';
    assert s[16..16 + |v|] == v;
    SearchAtStart(s, LsposedVersionAt);
  }

  /** `PREFIX(.+?)\s` at `i`: the lazy capture is the shortest non-empty
      text after the prefix that is followed by a `\s` and holds no line
      terminator. Every character after the first is then a non-space, so
      only the first may be a terminator. */
  function LazyUntilSpaceAt(s: string, prefix: string, i: nat): (r: Option<string>)
    ensures r.Some? ==> OccursAt(s, prefix + r.value, i)
    ensures r.Some? ==> r.value != [] && !IsLineTerminator(r.value[0])
    ensures r.Some? ==> forall k :: 1 <= k < |r.value| ==> !IsRegexSpace(r.value[k])
    ensures r.Some? ==> i + |prefix| + |r.value| < |s| && IsRegexSpace(s[i + |prefix| + |r.value|])
  {
    if !OccursAt(s, prefix, i) || i + |prefix| >= |s| then None
    else
      var p := i + |prefix|;
      if IsLineTerminator(s[p]) then None
      else match NextSpace(s, p + 1)
        case None => None
        case Some(q) =>
          assert s[i..q] == s[i..p] + s[p..q];
          Some(s[p..q])
  }

  function LsposedTargetAt(s: string, i: nat): Option<string> {
    LazyUntilSpaceAt(s, "target=", i)
  }

  /** Text written after the prefix up to a space comes back as the capture. */
  lemma LazyUntilSpaceRoundTrip(prefix: string, v: string, sp: char, rest: string)
    requires v != [] && !IsLineTerminator(v[0])
    requires forall k :: 1 <= k < |v| ==> !IsRegexSpace(v[k])
    requires IsRegexSpace(sp)
    ensures LazyUntilSpaceAt(prefix + v + [sp] + rest, prefix, 0) == Some(v)
  {
    var s := prefix + v + [sp] + rest;
    var p := |prefix|;
    assert s[..p] == prefix;
    assert s[p] == v[0];
    assert forall k :: p + 1 <= k < p + |v| ==> s[k] == v[k - p];
    assert s[p + |v|] == sp;
    assert s[p..p + |v|] == v;
  }

  lemma LsposedTargetRoundTrip(v: string, sp: char, rest: string)
    requires v != [] && !IsLineTerminator(v[0])
    requires forall k :: 1 <= k < |v| ==> !IsRegexSpace(v[k])
    requires IsRegexSpace(sp)
    ensures Search("target=" + v + [sp] + rest, LsposedTargetAt) == Some(v)
  {
    LazyUntilSpaceRoundTrip("target=", v, sp, rest);
    SearchAtStart("target=" + v + [sp] + rest, LsposedTargetAt);
  }

  /** `KernelSU: (\S+init) argc:` at `i`. The greedy `\S+` can only give
      back characters inside its run, and " argc:" starts with a space, so
      the capture is the whole run of non-spaces, which must end in "init"
      and be longer than it. */
  function KsuInitAt(s: string, i: nat): (r: Option<string>)
    ensures r.Some? ==> OccursAt(s, "KernelSU: " + r.value + " argc:", i)
    ensures r.Some? ==> |r.value| >= 5 && EndsWith(r.value, "init")
    ensures r.Some? ==> forall k :: 0 <= k < |r.value| ==> IsNonSpace(r.value[k])
  {
    if !OccursAt(s, "KernelSU: ", i) then None
    else
      var p := i + 10;
      var e := RunEnd(s, p, IsNonSpace);
      if e >= p + 5 && s[e - 4..e] == "init" && OccursAt(s, " argc:", e) then
        assert s[i..e + 6] == s[i..p] + s[p..e] + s[e..e + 6];
        Some(s[p..e])
      else None
  }

  lemma KsuInitRoundTrip(name: string, rest: string)
    requires |name| >= 1 && forall k :: 0 <= k < |name| ==> IsNonSpace(name[k])
    ensures Search("KernelSU: " + name + "init argc:" + rest, KsuInitAt) == Some(name + "init")
  {
    var v := name + "init";
    var s := "KernelSU: " + name + "init argc:" + rest;
    assert s == "KernelSU: " + v + (" argc:" + rest);
    assert forall k :: 0 <= k < |v| ==> IsNonSpace(v[k]) by {
      forall k | 0 <= k < |v| ensures IsNonSpace(v[k]) {
        if k >= |name| { assert v[k] == "init"[k - |name|]; }
      }
    }
    RunEndOf("KernelSU: ", v, " argc:" + rest, IsNonSpace);
    var e := 10 + |v|;
    assert s[..10] == "KernelSU: ";
    assert s[e - 4..e] == "init";
    assert s[e..e + 6] == " argc:";
    assert s[10..e] == v;
    SearchAtStart(s, KsuInitAt);
  }

  /** `susfs is initialized! version: (v[\d\.]+)` at `i`: a 'v' and the
      longest run, of at least one, of digits and dots after it. */
  function SusfsVersionAt(s: string, i: nat): (r: Option<string>)
    ensures r.Some? ==> OccursAt(s, "susfs is initialized! version: " + r.value, i)
    ensures r.Some? ==> |r.value| >= 2 && r.value[0] == 'v'
    ensures r.Some? ==> forall k :: 1 <= k < |r.value| ==> IsDigitOrDot(r.value[k])
    ensures r.Some? ==> var e := i + 31 + |r.value|; e == |s| || !IsDigitOrDot(s[e])
  {
    if !OccursAt(s, "susfs is initialized! version: v", i) then None
    else
      var p := i + 31;
      var e := RunEnd(s, p + 1, IsDigitOrDot);
      if e > p + 1 then
        assert s[i..p + 1] == "susfs is initialized! version: v";
        assert s[i..p] == s[i..p + 1][..31];
        assert s[p] == s[i..p + 1][31];
        assert s[i..e] == s[i..p] + s[p..e];
        Some(s[p..e])
      else None
  }

  lemma SusfsVersionRoundTrip(v: string, rest: string)
    requires v != [] && forall k :: 0 <= k < |v| ==> IsDigitOrDot(v[k])
    requires rest == [] || !IsDigitOrDot(rest[0])
    ensures Search("susfs is initialized! version: v" + v + rest, SusfsVersionAt) == Some("v" + v)
  {
    var s := "susfs is initialized! version: v" + v + rest;
    RunEndOf("susfs is initialized! version: v", v, rest, IsDigitOrDot);
    assert s[..32] == "susfs is initialized! version: v";
    assert s[31..32 + |v|] == "v" + v;
    SearchAtStart(s, SusfsVersionAt);
  }

  /** `----- pid (\d+) at` at `i`: the longest digit run after the literal,
      followed by " at". */
  function PidDumpAt(s: string, i: nat): (r: Option<string>)
    ensures r.Some? ==> OccursAt(s, "----- pid " + r.value + " at", i)
    ensures r.Some? ==> IsNumeric(r.value)
  {
    if !OccursAt(s, "----- pid ", i) then None
    else
      var p := i + 10;
      var e := RunEnd(s, p, IsDigit);
      if e > p && OccursAt(s, " at", e) then
        assert s[i..e + 3] == s[i..p] + s[p..e] + s[e..e + 3];
        Some(s[p..e])
      else None
  }

  lemma PidDumpRoundTrip(n: nat, rest: string)
    ensures Search("----- pid " + NatToString(n) + " at" + rest, PidDumpAt) == Some(NatToString(n))
  {
    var v := NatToString(n);
    var s := "----- pid " + v + " at" + rest;
    assert s == "----- pid " + v + (" at" + rest);
    RunEndOf("----- pid ", v, " at" + rest, IsDigit);
    assert s[..10] == "----- pid ";
    assert s[10 + |v|..13 + |v|] == " at";
    assert s[10..10 + |v|] == v;
    SearchAtStart(s, PidDumpAt);
  }

  /** `pkg=(.+?)\s|cmd=(.+?)\s` at `i`: the first alternative is tried
      first; the result is whichever group matched. */
  function SuGrantAt(s: string, i: nat): (r: Option<string>)
    ensures r.Some? ==> LazyUntilSpaceAt(s, "pkg=", i) == r || LazyUntilSpaceAt(s, "cmd=", i) == r
    ensures LazyUntilSpaceAt(s, "pkg=", i).Some? ==> r == LazyUntilSpaceAt(s, "pkg=", i)
  {
    match LazyUntilSpaceAt(s, "pkg=", i)
    case Some(app) => Some(app)
    case None => LazyUntilSpaceAt(s, "cmd=", i)
  }
}
