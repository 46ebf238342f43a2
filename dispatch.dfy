/** Which rules see which lines: the map from target-section names to the
    rules that declared them (`map_rules_to_sections`) and the rules a
    section of the report activates (every rule listed under a target
    name that occurs in the section's title). */
module Dispatch {
  import opened Strings
  import opened OrderedMaps
  import opened Registry

  /** `std::map<std::string, std::vector<IDetectionRule*>>`; the lemmas
      below hold for any rule type `R` and any choice of target lists. */
  type RuleMap<R> = seq<Entry<seq<R>>>

  /** The rules stored under `t`; none when `t` is not a key. */
  function Lookup<R>(m: RuleMap<R>, t: string): seq<R> {
    match Get(m, t)
    case Some(rs) => rs
    case None => []
  }

  /** How many times `t` is listed in `ts`. */
  function Count(ts: seq<string>, t: string): nat {
    if ts == [] then 0 else Count(ts[..|ts| - 1], t) + (if ts[|ts| - 1] == t then 1 else 0)
  }

  function Repeat<R>(r: R, c: nat): (rs: seq<R>)
    ensures |rs| == c && forall i :: 0 <= i < c ==> rs[i] == r
  {
    if c == 0 then [] else Repeat(r, c - 1) + [r]
  }

  /** The rules of `rules` that target `t`, in registration order, each as
      many times as it lists `t`. */
  function Bucket<R>(rules: seq<R>, targets: R -> seq<string>, t: string): seq<R> {
    if rules == [] then []
    else
      var r := rules[|rules| - 1];
      Bucket(rules[..|rules| - 1], targets, t) + Repeat(r, Count(targets(r), t))
  }

  // ---------------------------------------------------------------- building the map

  /** `map[section].push_back(rule)` for each of `ts` in turn. */
  function AddTargets<R>(m: RuleMap<R>, r: R, ts: seq<string>): RuleMap<R> {
    if ts == [] then m
    else
      var m' := AddTargets(m, r, ts[..|ts| - 1]);
      var t := ts[|ts| - 1];
      Put(m', t, Lookup(m', t) + [r])
  }

  /** The map built from `rules` in order. */
  function RuleMapOf<R>(rules: seq<R>, targets: R -> seq<string>): RuleMap<R> {
    if rules == [] then [] else
      var r := rules[|rules| - 1];
      AddTargets(RuleMapOf(rules[..|rules| - 1], targets), r, targets(r))
  }

  /** Adding a rule's targets keeps the keys ordered and every key holding
      at least one rule, and adds exactly the targets as keys. */
  lemma {:induction false} AddTargetsKeys<R>(m: RuleMap<R>, r: R, ts: seq<string>)
    requires Sorted(m) && forall t :: Get(m, t).Some? ==> Lookup(m, t) != []
    ensures var m' := AddTargets(m, r, ts);
            && Sorted(m')
            && (forall t :: Get(m', t).Some? <==> Get(m, t).Some? || t in ts)
            && (forall t :: Get(m', t).Some? ==> Lookup(m', t) != [])
    decreases |ts|
  {
    if ts != [] {
      var pre := ts[..|ts| - 1];
      var t := ts[|ts| - 1];
      AddTargetsKeys(m, r, pre);
      var m0 := AddTargets(m, r, pre);
      PutSorted(m0, t, Lookup(m0, t) + [r]);
      SnocMembers(ts);
    }
  }

  /** Adding a rule's targets appends it, under each name, once per listing
      of that name. */
  lemma {:induction false} AddTargetsLookup<R>(m: RuleMap<R>, r: R, ts: seq<string>)
    ensures forall t :: Lookup(AddTargets(m, r, ts), t) == Lookup(m, t) + Repeat(r, Count(ts, t))
    decreases |ts|
  {
    if ts != [] {
      var pre := ts[..|ts| - 1];
      var t := ts[|ts| - 1];
      AddTargetsLookup(m, r, pre);
      var m0 := AddTargets(m, r, pre);
      var m1 := AddTargets(m, r, ts);
      forall u ensures Lookup(m1, u) == Lookup(m, u) + Repeat(r, Count(ts, u)) {
        if u == t {
          calc {
            Lookup(m1, u);
            Lookup(m0, t) + [r];
            Lookup(m, u) + Repeat(r, Count(pre, u)) + [r];
            Lookup(m, u) + (Repeat(r, Count(pre, u)) + [r]);
          }
        } else {
          assert Count(ts, u) == Count(pre, u);
        }
      }
    }
  }

  lemma SnocMembers<T>(xs: seq<T>)
    requires xs != []
    ensures forall u :: u in xs <==> u in xs[..|xs| - 1] || u == xs[|xs| - 1]
  {
    assert xs == xs[..|xs| - 1] + [xs[|xs| - 1]];
  }

  /** The rule map of `rules` stores, under each name, exactly the rules
      that target it (in registration order, repeated per listing), and
      has a key for exactly the names some rule targets. */
  lemma {:induction false} RuleMapSpec<R>(rules: seq<R>, targets: R -> seq<string>)
    ensures var m := RuleMapOf(rules, targets);
            && Sorted(m)
            && (forall t :: Get(m, t).Some? <==> Lookup(m, t) != [])
            && (forall t :: Lookup(m, t) == Bucket(rules, targets, t))
    decreases |rules|
  {
    if rules != [] {
      var pre := rules[..|rules| - 1];
      var r := rules[|rules| - 1];
      RuleMapSpec(pre, targets);
      AddTargetsKeys(RuleMapOf(pre, targets), r, targets(r));
      AddTargetsLookup(RuleMapOf(pre, targets), r, targets(r));
      forall t ensures Get(RuleMapOf(rules, targets), t).Some? <==> Lookup(RuleMapOf(rules, targets), t) != [] {
        if Get(RuleMapOf(rules, targets), t).Some? && Get(RuleMapOf(pre, targets), t).None? {
          CountPositive(targets(r), t);
        }
      }
    }
  }

  lemma {:induction false} CountPositive(ts: seq<string>, t: string)
    ensures t in ts <==> Count(ts, t) > 0
    decreases |ts|
  {
    if ts != [] {
      CountPositive(ts[..|ts| - 1], t);
      assert ts == ts[..|ts| - 1] + [ts[|ts| - 1]];
    }
  }

  /** `map_rules_to_sections`. */
  method MapRulesToSections() returns (m: RuleMap<Rule>)
    ensures m == RuleMapOf(Registered, Targets)
    ensures Sorted(m)
    ensures forall t :: Lookup(m, t) == Bucket(Registered, Targets, t)
    ensures forall t :: Get(m, t).Some? <==> Bucket(Registered, Targets, t) != []
  {
    m := [];
    for i := 0 to |Registered|
      invariant m == RuleMapOf(Registered[..i], Targets)
    {
      m := PushRule(m, Registered[i], Targets(Registered[i]));
      assert Registered[..i + 1][..i] == Registered[..i];
    }
    assert Registered[..|Registered|] == Registered;
    RuleMapSpec(Registered, Targets);
  }

  /** `map[section].push_back(rule)` for each of the rule's target names. */
  method PushRule<R>(m0: RuleMap<R>, r: R, ts: seq<string>) returns (m: RuleMap<R>)
    ensures m == AddTargets(m0, r, ts)
  {
    m := m0;
    for j := 0 to |ts|
      invariant m == AddTargets(m0, r, ts[..j])
    {
      assert ts[..j + 1][..j] == ts[..j];
      m := Put(m, ts[j], Lookup(m, ts[j]) + [r]);
    }
    assert ts[..|ts|] == ts;
  }

  // ---------------------------------------------------------------- the rules a section activates

  /** `active_rules`: walking the map in key order, the rules of every key
      that occurs in the section's name, concatenated. */
  function Active<R>(m: RuleMap<R>, name: string): seq<R> {
    if m == [] then []
    else
      var e := m[|m| - 1];
      Active(m[..|m| - 1], name) + (if Contains(name, e.0) then e.1 else [])
  }

  method ActiveRules(m: RuleMap<Rule>, name: string) returns (active: seq<Rule>)
    ensures active == Active(m, name)
  {
    active := [];
    for i := 0 to |m|
      invariant active == Active(m[..i], name)
    {
      assert m[..i + 1][..i] == m[..i];
      if Contains(name, m[i].0) {
        active := active + m[i].1;
      }
    }
    assert m[..|m|] == m;
  }

  /** How many of `ts` occur in `name`, counted with repetition. */
  function Matching(ts: seq<string>, name: string): nat {
    if ts == [] then 0 else Matching(ts[..|ts| - 1], name) + (if Contains(name, ts[|ts| - 1]) then 1 else 0)
  }

  /** The entries of `ts` that are in `ks`. */
  function Restrict(ts: seq<string>, ks: set<string>): seq<string> {
    if ts == [] then []
    else Restrict(ts[..|ts| - 1], ks) + (if ts[|ts| - 1] in ks then [ts[|ts| - 1]] else [])
  }

  /** The weight a run of keys gives a rule with targets `ts`: for each key
      occurring in the name, how many times `ts` lists it. */
  function KeyWeight(ks: seq<string>, ts: seq<string>, name: string): nat {
    if ks == [] then 0
    else
      var k := ks[|ks| - 1];
      KeyWeight(ks[..|ks| - 1], ts, name) + (if Contains(name, k) then Count(ts, k) else 0)
  }

  function Elems(ks: seq<string>): set<string> {
    set k | k in ks
  }

  function KeySeq<R>(m: RuleMap<R>): (ks: seq<string>)
    ensures |ks| == |m| && forall i :: 0 <= i < |m| ==> ks[i] == m[i].0
  {
    if m == [] then [] else KeySeq(m[..|m| - 1]) + [m[|m| - 1].0]
  }

  /** Adding one more key `k` to the kept set adds the listings of `k`. */
  lemma {:induction false} RestrictAdd(ts: seq<string>, ks: set<string>, k: string, name: string)
    requires k !in ks
    ensures Matching(Restrict(ts, ks + {k}), name)
            == Matching(Restrict(ts, ks), name) + (if Contains(name, k) then Count(ts, k) else 0)
    decreases |ts|
  {
    if ts != [] {
      var pre := ts[..|ts| - 1];
      RestrictAdd(pre, ks, k, name);
      MatchingAppend(Restrict(pre, ks + {k}), if ts[|ts| - 1] in ks + {k} then [ts[|ts| - 1]] else [], name);
      MatchingAppend(Restrict(pre, ks), if ts[|ts| - 1] in ks then [ts[|ts| - 1]] else [], name);
    }
  }

  lemma {:induction false} MatchingAppend(a: seq<string>, b: seq<string>, name: string)
    requires |b| <= 1
    ensures Matching(a + b, name) == Matching(a, name) + Matching(b, name)
  {
    if b != [] {
      assert (a + b)[..|a + b| - 1] == a;
      assert [] + b == b;
    } else {
      assert a + b == a;
    }
  }

  /** Over distinct keys, the weight is the number of listings in `ts` of
      those keys that occur in the name. */
  lemma {:induction false} KeyWeightIsMatching(ks: seq<string>, ts: seq<string>, name: string)
    requires forall i, j :: 0 <= i < j < |ks| ==> ks[i] != ks[j]
    ensures KeyWeight(ks, ts, name) == Matching(Restrict(ts, Elems(ks)), name)
    decreases |ks|
  {
    if ks == [] {
      assert Elems(ks) == {};
      RestrictNone(ts);
    } else {
      var pre := ks[..|ks| - 1];
      var k := ks[|ks| - 1];
      KeyWeightIsMatching(pre, ts, name);
      assert k !in (Elems(pre));
      RestrictAdd(ts, Elems(pre), k, name);
      assert (Elems(ks)) == (Elems(pre)) + {k} by { assert ks == pre + [k]; }
    }
  }

  lemma {:induction false} RestrictNone(ts: seq<string>)
    ensures Matching(Restrict(ts, {}), "") == 0 && forall name :: Matching(Restrict(ts, {}), name) == 0
    decreases |ts|
  {
    if ts != [] {
      RestrictNone(ts[..|ts| - 1]);
      assert Restrict(ts, {}) == Restrict(ts[..|ts| - 1], {});
    }
  }

  /** Keeping a set that holds every entry keeps everything. */
  lemma {:induction false} RestrictAll(ts: seq<string>, ks: set<string>)
    requires forall t :: t in ts ==> t in ks
    ensures Restrict(ts, ks) == ts
    decreases |ts|
  {
    if ts != [] {
      RestrictAll(ts[..|ts| - 1], ks);
      assert ts == ts[..|ts| - 1] + [ts[|ts| - 1]];
    }
  }

  lemma {:induction false} BucketCount<R>(rules: seq<R>, targets: R -> seq<string>, t: string, r: R)
    ensures multiset(Bucket(rules, targets, t))[r] == multiset(rules)[r] * Count(targets(r), t)
    decreases |rules|
  {
    if rules != [] {
      var pre := rules[..|rules| - 1];
      var last := rules[|rules| - 1];
      BucketCount(pre, targets, t, r);
      assert rules == pre + [last];
      RepeatCount(last, Count(targets(last), t), r);
      var a := multiset(pre)[r];
      var c := Count(targets(r), t);
      if last == r {
        assert multiset(Bucket(rules, targets, t))[r] == a * c + c;
        assert multiset(rules)[r] == a + 1;
        MulSucc(a, c);
      } else {
        assert multiset(Bucket(rules, targets, t))[r] == a * c;
        assert multiset(rules)[r] == a;
      }
    } else {
      assert 0 * Count(targets(r), t) == 0;
    }
  }

  lemma MulSucc(a: int, c: int)
    ensures a * c + c == (a + 1) * c
  {
  }

  lemma MulAdd(a: int, b: int, c: int)
    ensures a * b + a * c == a * (b + c)
  {
  }

  lemma MulPositive(a: int, c: int)
    requires a >= 1 && c >= 1
    ensures a * c >= 1
  {
  }

  lemma {:induction false} RepeatCount<R>(x: R, c: nat, r: R)
    ensures multiset(Repeat(x, c))[r] == if x == r then c else 0
    decreases c
  {
    if c > 0 {
      RepeatCount(x, c - 1, r);
    }
  }

  /** The rules a map activates, counted: when every key's list holds `r`
      `a` times per listing of the key in `ts`, the active rules hold `r`
      `a` times per listing in `ts` of a key occurring in the name. */
  lemma {:induction false} ActiveCount<R>(m: RuleMap<R>, name: string, r: R, a: nat, ts: seq<string>)
    requires forall i :: 0 <= i < |m| ==> multiset(m[i].1)[r] == a * Count(ts, m[i].0)
    ensures multiset(Active(m, name))[r] == a * KeyWeight(KeySeq(m), ts, name)
    decreases |m|
  {
    if m != [] {
      var pre := m[..|m| - 1];
      var e := m[|m| - 1];
      ActiveCount(pre, name, r, a, ts);
      assert KeySeq(m)[..|m| - 1] == KeySeq(pre);
      var w := KeyWeight(KeySeq(pre), ts, name);
      var c := if Contains(name, e.0) then Count(ts, e.0) else 0;
      var tail := if Contains(name, e.0) then e.1 else [];
      assert multiset(tail)[r] == a * c by {
        if !Contains(name, e.0) { assert a * 0 == 0; }
      }
      assert Active(m, name) == Active(pre, name) + tail;
      assert multiset(Active(m, name))[r] == multiset(Active(pre, name))[r] + multiset(tail)[r];
      assert KeyWeight(KeySeq(m), ts, name) == w + c;
      MulAdd(a, w, c);
    } else {
      assert a * 0 == 0;
    }
  }

  /** A section activates each rule once for every one of its target names
      that occurs in the section's title (times the number of times the
      rule is registered). */
  lemma ActiveMultiplicityOf<R>(rules: seq<R>, targets: R -> seq<string>, name: string, r: R)
    ensures multiset(Active(RuleMapOf(rules, targets), name))[r]
            == multiset(rules)[r] * Matching(targets(r), name)
  {
    var m := RuleMapOf(rules, targets);
    RuleMapSpec(rules, targets);
    forall i | 0 <= i < |m| ensures multiset(m[i].1)[r] == multiset(rules)[r] * Count(targets(r), m[i].0) {
      GetAt(m, i);
      BucketCount(rules, targets, m[i].0, r);
    }
    ActiveCount(m, name, r, multiset(rules)[r], targets(r));
    var ks := KeySeq(m);
    forall i, j | 0 <= i < j < |ks| ensures ks[i] != ks[j] {
      LessIrreflexive(ks[i]);
    }
    KeyWeightIsMatching(ks, targets(r), name);
    if r in rules {
      forall t | t in targets(r) ensures t in Elems(ks) {
        CountPositive(targets(r), t);
        BucketCount(rules, targets, t, r);
        MulPositive(multiset(rules)[r], Count(targets(r), t));
        assert r in multiset(Bucket(rules, targets, t));
        var i := KeyIndex(m, t);
        assert ks[i] == t;
      }
      RestrictAll(targets(r), Elems(ks));
    }
  }

  /** The registry's case: a rule listing two names that both occur in a
      section's title runs twice on each of that section's lines. */
  lemma ActiveMultiplicity(name: string, r: Rule)
    ensures multiset(Active(RuleMapOf(Registered, Targets), name))[r]
            == multiset(Registered)[r] * Matching(Targets(r), name)
  {
    ActiveMultiplicityOf(Registered, Targets, name, r);
  }

  /** ResetpropRule targets both "LOGCAT" and "LAST LOGCAT", and both occur
      in the title "LAST LOGCAT": it runs twice on every line there for each
      time it is registered. */
  lemma LastLogcatRunsResetpropTwice()
    ensures multiset(Active(RuleMapOf(Registered, Targets), "LAST LOGCAT"))[Log(Resetprop)]
            == multiset(Registered)[Log(Resetprop)] * 2
  {
    ActiveMultiplicity("LAST LOGCAT", Log(Resetprop));
    ResetpropMatchesLastLogcat();
  }

  lemma ResetpropMatchesLastLogcat()
    ensures Matching(Targets(Log(Resetprop)), "LAST LOGCAT") == 2
  {
    var name := "LAST LOGCAT";
    ContainsWitness(name, "LOGCAT", 5);
    ContainsWitness(name, "LAST LOGCAT", 0);
    MissingCharNotContained(name, "SYSTEM LOG", 1);
    var a: seq<string> := ["LOGCAT"];
    var b := a + ["SYSTEM LOG"];
    var c := b + ["LAST LOGCAT"];
    assert a[..0] == [];
    assert Matching(a, name) == 1;
    assert b[..1] == a;
    assert Matching(b, name) == 1;
    assert c[..2] == b;
    assert Matching(c, name) == 2;
    assert Targets(Log(Resetprop)) == c;
  }
}
