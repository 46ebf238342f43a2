/** `parse_property_line` (src/rules/RulesCommon.cpp): splits a
    `[key]: [value]` line of the system-properties dump. */
module RulesCommon {
  import opened Strings

  /** The key/value pair of a property line, or `None` when the line is
      empty, does not start with '[' or has no `"]:"`; in those cases the
      source leaves its out-parameters untouched. The key runs from after
      the '[' to the first `"]:"`. */
  function ParsePropertyLine(line: string): (r: Option<(string, string)>)
    ensures r.None? <==> (line == [] || line[0] != '[' || !Contains(line, "]:"))
    ensures r.Some? ==> |r.value.0| + 3 <= |line| && line[1..|r.value.0| + 1] == r.value.0
    ensures r.Some? ==> OccursAt(line, "]:", |r.value.0| + 1)
    ensures r.Some? ==> forall j :: 0 <= j <= |r.value.0| ==> !OccursAt(line, "]:", j)
    ensures r.Some? ==> ValueAfter(line[|r.value.0| + 3..], r.value.1)
  {
    if line == [] || line[0] != '[' then None
    else match Find(line, "]:")
      case None => None
      case Some(keyEnd) =>
        assert line[keyEnd] == line[keyEnd..keyEnd + 2][0] == "]:"[0];
        Some(SplitProperty(line, keyEnd))
  }

  /** The key between the '[' and the first `"]:"` at `keyEnd`, and the
      value taken from the text after it. */
  function SplitProperty(line: string, keyEnd: nat): (kv: (string, string))
    requires 1 <= keyEnd && keyEnd + 2 <= |line|
    ensures |kv.0| + 1 == keyEnd && line[1..keyEnd] == kv.0
    ensures ValueAfter(line[keyEnd + 2..], kv.1)
  {
    (line[1..keyEnd], Unbracket(TrimLeft(line[keyEnd + 2..])))
  }

  /** `v` is the value written in `rest`, the text after `"]:"`: leading
      blanks dropped, then one pair of enclosing brackets if present. */
  predicate ValueAfter(rest: string, v: string) {
    var valuePart := TrimLeft(rest);
    if |valuePart| >= 2 && valuePart[0] == '[' && valuePart[|valuePart| - 1] == ']'
    then valuePart == "[" + v + "]"
    else valuePart == v
  }

  /** One pair of enclosing brackets removed, if the text has them. */
  function Unbracket(s: string): (v: string)
    ensures if |s| >= 2 && s[0] == '[' && s[|s| - 1] == ']' then s == "[" + v + "]" else s == v
  {
    if |s| >= 2 && s[0] == '[' && s[|s| - 1] == ']' then
      assert s == [s[0]] + s[1..|s| - 1] + [s[|s| - 1]];
      s[1..|s| - 1]
    else s
  }

  /** The out-parameters after the call: the parsed pair, or the values
      they held before. */
  function ParsePropertyLineInto(line: string, key: string, value: string): (r: (string, string))
    ensures ParsePropertyLine(line).None? ==> r == (key, value)
    ensures ParsePropertyLine(line).Some? ==> r == ParsePropertyLine(line).value
  {
    match ParsePropertyLine(line)
    case None => (key, value)
    case Some(kv) => kv
  }

  /** In `[key]:` followed by anything, with a key free of `"]:"`, the
      first `"]:"` is the one written after the key. */
  lemma {:induction false} FirstSeparator(k: string, rest: string)
    requires !Contains(k, "]:")
    ensures Find("[" + k + "]:" + rest, "]:") == Some(|k| + 1)
  {
    var line := "[" + k + "]:" + rest;
    var i := |k| + 1;
    assert line[i..i + 2] == "]:";
    forall j: nat | j < i ensures !OccursAt(line, "]:", j) {
      if j == 0 {
        assert line[j..j + 2][0] == '[';
        assert !OccursAt(line, "]:", j);
      } else if j == i - 1 {
        assert line[j..j + 2][1] == ']';
        assert !OccursAt(line, "]:", j);
      } else {
        assert line[j..j + 2] == k[j - 1..j + 1];
        assert !OccursAt(k, "]:", j - 1);
        assert !OccursAt(line, "]:", j);
      }
    }
    FindIs(line, "]:", i);
  }

  /** Once the first `"]:"` of a bracketed line is known, the pair is the
      text between, and the value taken from the text after. */
  lemma ParseAt(line: string, keyEnd: nat)
    requires line != [] && line[0] == '[' && Find(line, "]:") == Some(keyEnd)
    ensures 1 <= keyEnd && keyEnd + 2 <= |line|
    ensures ParsePropertyLine(line) == Some(SplitProperty(line, keyEnd))
  {
    assert line[keyEnd] == line[keyEnd..keyEnd + 2][0] == "]:"[0];
  }

  /** A key free of `"]:"`, then `"]:"`, then any text: the key and the
      value that text holds. */
  lemma ParseKeyed(k: string, rest: string)
    requires !Contains(k, "]:")
    ensures ParsePropertyLine("[" + k + "]:" + rest) == Some((k, Unbracket(TrimLeft(rest))))
  {
    var line := "[" + k + "]:" + rest;
    FirstSeparator(k, rest);
    ParseAt(line, |k| + 1);
    assert line[1..|k| + 1] == k;
    assert line[|k| + 3..] == rest;
  }

  /** Round trip: a key free of `"]:"` and any value, written as
      `[key]: [value]`, parse back to themselves. */
  lemma PropertyRoundTrip(k: string, v: string)
    requires !Contains(k, "]:")
    ensures ParsePropertyLine("[" + k + "]: [" + v + "]") == Some((k, v))
  {
    var bracketed := "[" + v + "]";
    assert "[" + k + "]: [" + v + "]" == "[" + k + "]:" + (" " + bracketed);
    ParseKeyed(k, " " + bracketed);
    TrimBlanks(" ", bracketed);
    assert bracketed[1..|bracketed| - 1] == v;
  }

  /** A value written without brackets after any run of blanks is taken
      as it stands, provided it neither starts with a blank nor is itself
      enclosed in brackets. */
  lemma PropertyUnbracketed(k: string, blanks: string, v: string)
    requires !Contains(k, "]:")
    requires forall i :: 0 <= i < |blanks| ==> IsBlank(blanks[i])
    requires v == [] || !IsBlank(v[0])
    requires !(|v| >= 2 && v[0] == '[' && v[|v| - 1] == ']')
    ensures ParsePropertyLine("[" + k + "]:" + blanks + v) == Some((k, v))
  {
    assert "[" + k + "]:" + blanks + v == "[" + k + "]:" + (blanks + v);
    ParseKeyed(k, blanks + v);
    TrimBlanks(blanks, v);
  }
}
