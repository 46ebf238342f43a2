/** Text primitives of the engine, stated over `string` (a sequence of chars).
    They mirror the `std::string_view` operations the rules use:
    `find`, `rfind(p, 0) == 0`, `find_first_not_of(" \t")`,
    `find_last_of(" \t")`, ASCII `tolower` and `std::to_string`. */
module Strings {

  datatype Option<+T> = None | Some(value: T)

  /** `p` occurs in `s` at index `i`. */
  predicate OccursAt(s: string, p: string, i: nat) {
    i + |p| <= |s| && s[i..i + |p|] == p
  }

  /** `s.find(p) != npos`. The empty pattern occurs in every string. */
  predicate Contains(s: string, p: string) {
    exists i: nat | i <= |s| :: OccursAt(s, p, i)
  }

  /** `s.rfind(p, 0) == 0`. */
  predicate StartsWith(s: string, p: string) {
    |p| <= |s| && s[..|p|] == p
  }

  predicate EndsWith(s: string, p: string) {
    |p| <= |s| && s[|s| - |p|..] == p
  }

  /** Leftmost occurrence of `p` in `s` at or after `from`. */
  function FindFrom(s: string, p: string, from: nat): (r: Option<nat>)
    requires from <= |s|
    ensures r.Some? ==> from <= r.value && OccursAt(s, p, r.value)
    ensures r.Some? ==> forall j :: from <= j < r.value ==> !OccursAt(s, p, j)
    ensures r.None? ==> forall j :: from <= j <= |s| ==> !OccursAt(s, p, j)
    decreases |s| - from
  {
    if from + |p| > |s| then None
    else if s[from..from + |p|] == p then Some(from)
    else if from == |s| then None
    else FindFrom(s, p, from + 1)
  }

  /** `s.find(p)`. */
  function Find(s: string, p: string): (r: Option<nat>)
    ensures r.Some? <==> Contains(s, p)
    ensures r.Some? ==> OccursAt(s, p, r.value)
    ensures r.Some? ==> forall j :: 0 <= j < r.value ==> !OccursAt(s, p, j)
  {
    var r := FindFrom(s, p, 0);
    assert r.Some? ==> r.value <= |s|;
    r
  }

  /** `Find` returns the occurrence that no earlier occurrence precedes. */
  lemma FindIs(s: string, p: string, i: nat)
    requires OccursAt(s, p, i)
    requires forall j :: 0 <= j < i ==> !OccursAt(s, p, j)
    ensures Find(s, p) == Some(i)
  {
    assert Contains(s, p);
  }

  /** A witness occurrence proves containment. */
  lemma ContainsWitness(s: string, p: string, i: nat)
    requires OccursAt(s, p, i)
    ensures Contains(s, p)
  {
  }

  /** A pattern written into a string is found in it. */
  lemma ContainsMiddle(a: string, p: string, b: string)
    ensures Contains(a + p + b, p)
  {
    assert (a + p + b)[|a|..|a| + |p|] == p;
    ContainsWitness(a + p + b, p, |a|);
  }

  lemma ContainsFront(p: string, b: string)
    ensures Contains(p + b, p)
  {
    assert (p + b)[..|p|] == p;
    ContainsWitness(p + b, p, 0);
  }

  /** Wrapping in a fixed prefix and suffix is injective. */
  lemma WrapInjective(a: string, x: string, y: string, b: string)
    requires a + x + b == a + y + b
    ensures x == y
  {
    assert |x| == |y|;
    assert x == (a + x + b)[|a|..|a| + |x|];
    assert y == (a + y + b)[|a|..|a| + |y|];
  }

  /** Containment is transitive: a pattern inside a found pattern is found. */
  lemma ContainsTrans(s: string, p: string, q: string)
    requires Contains(s, p) && Contains(p, q)
    ensures Contains(s, q)
  {
    var i: nat :| i <= |s| && OccursAt(s, p, i);
    var j: nat :| j <= |p| && OccursAt(p, q, j);
    forall k | 0 <= k < |q| ensures s[i + j + k] == q[k] {
      assert s[i..i + |p|][j + k] == s[i + j + k];
      assert p[j..j + |q|][k] == p[j + k];
    }
    assert s[i + j..i + j + |q|] == q;
    assert OccursAt(s, q, i + j);
  }

  /** A string containing `p` contains it also when extended on either side. */
  lemma ContainsConcat(a: string, s: string, b: string, p: string)
    requires Contains(s, p)
    ensures Contains(a + s + b, p)
  {
    var i: nat :| i <= |s| && OccursAt(s, p, i);
    assert (a + s + b)[|a| + i..|a| + i + |p|] == s[i..i + |p|];
    assert OccursAt(a + s + b, p, |a| + i);
  }

  /** A prefix is contained. */
  lemma StartsWithContains(s: string, p: string)
    requires StartsWith(s, p)
    ensures Contains(s, p)
  {
    assert OccursAt(s, p, 0);
  }

  /** A pattern with a character that `s` lacks does not occur in `s`. */
  lemma MissingCharNotContained(s: string, p: string, k: nat)
    requires k < |p| && p[k] !in s
    ensures !Contains(s, p)
  {
    forall i: nat | i <= |s| ensures !OccursAt(s, p, i) {
      if i + |p| <= |s| {
        assert s[i..i + |p|][k] == s[i + k];
      }
    }
  }

  lemma NotInConcat(a: string, b: string, c: char)
    requires c !in a && c !in b
    ensures c !in a + b
  {
  }

  /** A pattern whose first character never occurs in `a` can only occur
      in `a + b` within `b`. */
  lemma PrefixFreeNotContained(a: string, b: string, p: string)
    requires p != [] && p[0] !in a && !Contains(b, p)
    ensures !Contains(a + b, p)
  {
    var s := a + b;
    forall i: nat | i <= |s| ensures !OccursAt(s, p, i) {
      if OccursAt(s, p, i) {
        assert s[i..i + |p|][0] == s[i];
        if i >= |a| {
          assert s[i..i + |p|] == b[i - |a|..i - |a| + |p|];
          assert OccursAt(b, p, i - |a|);
        }
      }
    }
  }

  /** A pattern whose `k`-th character occurs in `s` only at `j` can only
      occur at `j - k`; if it does not occur there, it does not occur. */
  lemma UniqueCharNotContained(s: string, p: string, k: nat, j: nat)
    requires k < |p| && j < |s| && s[j] == p[k]
    requires forall i :: 0 <= i < |s| && s[i] == p[k] ==> i == j
    requires j < k || !OccursAt(s, p, j - k)
    ensures !Contains(s, p)
  {
    forall i: nat | i <= |s| ensures !OccursAt(s, p, i) {
      if i + |p| <= |s| && s[i..i + |p|] == p {
        assert s[i..i + |p|][k] == s[i + k];
      }
    }
  }

  /** The same, for a string written around the one occurrence of the
      character. */
  lemma SplitCharNotContained(a: string, b: string, p: string, k: nat)
    requires k < |p| && p[k] !in a && p[k] !in b
    requires |a| < k || !OccursAt(a + [p[k]] + b, p, |a| - k)
    ensures !Contains(a + [p[k]] + b, p)
  {
    var s := a + [p[k]] + b;
    assert forall i :: 0 <= i < |a| ==> s[i] == a[i];
    assert forall i :: |a| < i < |s| ==> s[i] == b[i - |a| - 1];
    UniqueCharNotContained(s, p, k, |a|);
  }

  /** The two separators the tokenizing helpers use: `" \t"`. */
  predicate IsBlank(c: char) { c == ' ' || c == '\t' }

  /** `remove_prefix(min(find_first_not_of(" \t"), size()))`. */
  function TrimLeft(s: string): (r: string)
    ensures |r| <= |s| && r == s[|s| - |r|..]
    ensures r == [] || !IsBlank(r[0])
    ensures forall i :: 0 <= i < |s| - |r| ==> IsBlank(s[i])
  {
    if s != [] && IsBlank(s[0]) then TrimLeft(s[1..]) else s
  }

  /** Blanks before a value that does not start with one are all trimmed. */
  lemma {:induction false} TrimBlanks(blanks: string, v: string)
    requires forall i :: 0 <= i < |blanks| ==> IsBlank(blanks[i])
    requires v == [] || !IsBlank(v[0])
    ensures TrimLeft(blanks + v) == v
    decreases |blanks|
  {
    if blanks == [] {
      assert blanks + v == v;
    } else {
      assert (blanks + v)[1..] == blanks[1..] + v;
      TrimBlanks(blanks[1..], v);
    }
  }

  /** `find_first_of(" \t")`. */
  function FirstBlank(s: string): (r: Option<nat>)
    ensures r.Some? ==> r.value < |s| && IsBlank(s[r.value])
    ensures r.Some? ==> forall j :: 0 <= j < r.value ==> !IsBlank(s[j])
    ensures r.None? ==> forall j :: 0 <= j < |s| ==> !IsBlank(s[j])
  {
    if s == [] then None
    else if IsBlank(s[0]) then Some(0)
    else match FirstBlank(s[1..])
      case None => None
      case Some(k) => Some(k + 1)
  }

  /** `find_last_of(" \t")`. */
  function LastBlank(s: string): (r: Option<nat>)
    ensures r.Some? ==> r.value < |s| && IsBlank(s[r.value])
    ensures r.Some? ==> forall j :: r.value < j < |s| ==> !IsBlank(s[j])
    ensures r.None? ==> forall j :: 0 <= j < |s| ==> !IsBlank(s[j])
  {
    if s == [] then None
    else if IsBlank(s[|s| - 1]) then Some(|s| - 1)
    else LastBlank(s[..|s| - 1])
  }

  /** Index of the first character `c`, as `find(c)`. */
  function FindChar(s: string, c: char): (r: Option<nat>)
    ensures r.Some? ==> r.value < |s| && s[r.value] == c && c !in s[..r.value]
    ensures r.None? ==> c !in s
  {
    if s == [] then None
    else if s[0] == c then Some(0)
    else match FindChar(s[1..], c)
      case None => None
      case Some(k) => Some(k + 1)
  }

  /** Index of the last character `c`, as `find_last_of(c)`. */
  function FindLastChar(s: string, c: char): (r: Option<nat>)
    ensures r.Some? ==> r.value < |s| && s[r.value] == c && c !in s[r.value + 1..]
    ensures r.None? ==> c !in s
  {
    if s == [] then None
    else if s[|s| - 1] == c then Some(|s| - 1)
    else FindLastChar(s[..|s| - 1], c)
  }

  /** `std::isdigit` in the "C" locale. */
  predicate IsDigit(c: char) { '0' <= c <= '9' }

  /** Non-empty and made of decimal digits only. */
  predicate IsNumeric(s: string) {
    s != [] && forall i :: 0 <= i < |s| ==> IsDigit(s[i])
  }

  /** Value of a string of decimal digits. */
  function DecimalValue(s: string): (n: nat)
    requires forall i :: 0 <= i < |s| ==> IsDigit(s[i])
  {
    if s == [] then 0
    else
      assert IsDigit(s[|s| - 1]);
      10 * DecimalValue(s[..|s| - 1]) + (s[|s| - 1] as int - '0' as int)
  }

  function DigitChar(d: nat): (c: char)
    requires d < 10
    ensures IsDigit(c)
  {
    ['0', '1', '2', '3', '4', '5', '6', '7', '8', '9'][d]
  }

  /** `std::to_string` of a non-negative integer. */
  function NatToString(n: nat): (s: string)
    ensures IsNumeric(s)
    ensures DecimalValue(s) == n
    decreases n
  {
    if n < 10 then [DigitChar(n)]
    else
      var s := NatToString(n / 10) + [DigitChar(n % 10)];
      assert s[..|s| - 1] == NatToString(n / 10);
      s
  }

  /** ASCII `std::tolower` in the "C" locale: only 'A'..'Z' change. */
  function LowerChar(c: char): char {
    if 'A' <= c <= 'Z' then (c as int + 32) as char else c
  }

  function ToLower(s: string): (r: string)
    ensures |r| == |s|
    ensures forall i :: 0 <= i < |s| ==> r[i] == LowerChar(s[i])
  {
    if s == [] then [] else [LowerChar(s[0])] + ToLower(s[1..])
  }

  /** A string without upper-case letters is its own lower case. */
  lemma ToLowerNoUpper(s: string)
    requires forall i :: 0 <= i < |s| ==> !('A' <= s[i] <= 'Z')
    ensures ToLower(s) == s
  {
  }
}
