/** The if/else-if chains the rules are built from. Each `processLine`
    that picks one finding text by testing `line.find(..)`/`rfind(.., 0)`
    in turn, and each `getScore` that picks a score by testing the finding
    text in turn, is a table of branches read top to bottom: the first
    branch whose test holds decides. */
module Chains {
  import opened Strings
  import opened Report

  /** One `if`: the text must start with `prefix` (`""` when the test has
      no `rfind(.., 0) == 0`), contain every pattern of `all`, and, when
      `any` is non-empty, contain at least one pattern of `any`. */
  datatype Branch<T> = Branch(prefix: string, all: seq<string>, any: seq<string>, out: T)

  predicate Fires<T>(s: string, b: Branch<T>) {
    && StartsWith(s, b.prefix)
    && (forall i :: 0 <= i < |b.all| ==> Contains(s, b.all[i]))
    && (b.any == [] || exists i :: 0 <= i < |b.any| && Contains(s, b.any[i]))
  }

  /** A branch testing one substring. */
  function Has<T>(p: string, out: T): Branch<T> { Branch("", [p], [], out) }

  lemma HasFires<T>(s: string, p: string, out: T)
    ensures Fires(s, Has(p, out)) <==> Contains(s, p)
  {
    assert StartsWith(s, "");
    assert [p][0] == p;
  }

  /** A branch testing two substrings together. */
  lemma BothFires<T>(s: string, p: string, q: string, out: T)
    ensures Fires(s, Branch("", [p, q], [], out)) <==> Contains(s, p) && Contains(s, q)
  {
    assert StartsWith(s, "");
    assert [p, q][0] == p && [p, q][1] == q;
  }

  /** A branch testing for either of two substrings. */
  lemma EitherFires<T>(s: string, p: string, q: string, out: T)
    ensures Fires(s, Branch("", [], [p, q], out)) <==> Contains(s, p) || Contains(s, q)
  {
    assert StartsWith(s, "");
    assert [p, q][0] == p && [p, q][1] == q;
  }

  /** Index of the branch that decides: the first one whose test holds. */
  function FirstMatch<T>(s: string, bs: seq<Branch<T>>): (r: Option<nat>)
    ensures r.Some? ==> r.value < |bs| && Fires(s, bs[r.value])
    ensures r.Some? ==> forall j :: 0 <= j < r.value ==> !Fires(s, bs[j])
    ensures r.None? <==> forall j :: 0 <= j < |bs| ==> !Fires(s, bs[j])
    decreases |bs|
  {
    if bs == [] then None
    else if Fires(s, bs[0]) then Some(0)
    else match FirstMatch(s, bs[1..])
      case None => None
      case Some(k) => Some(k + 1)
  }

  /** A branch whose test implies an earlier branch's test never decides. */
  lemma Shadowed<T>(s: string, bs: seq<Branch<T>>, j: nat, k: nat)
    requires j < k < |bs|
    requires Fires(s, bs[k]) ==> Fires(s, bs[j])
    ensures FirstMatch(s, bs) != Some(k)
  {
  }

  /** `getScore`: the points of the first branch whose test holds on the
      finding text, 0 when none does. */
  function ScoreOf(msg: string, table: seq<Branch<int>>): (pts: int)
    ensures FirstMatch(msg, table).None? ==> pts == 0
    ensures FirstMatch(msg, table).Some? ==> pts == table[FirstMatch(msg, table).value].out
  {
    match FirstMatch(msg, table)
    case None => 0
    case Some(i) => table[i].out
  }

  /** The first branch decides whenever its test holds. */
  lemma FirstBranchDecides<T>(s: string, bs: seq<Branch<T>>)
    requires bs != [] && Fires(s, bs[0])
    ensures FirstMatch(s, bs) == Some(0)
  {
  }

  /** The branch that decides is the first whose test holds. */
  lemma FirstMatchIs<T>(s: string, bs: seq<Branch<T>>, i: nat)
    requires i < |bs| && Fires(s, bs[i])
    requires forall j :: 0 <= j < i ==> !Fires(s, bs[j])
    ensures FirstMatch(s, bs) == Some(i)
  {
    var r := FirstMatch(s, bs);
    assert r.Some?;
    assert !(r.value < i);
    assert !(r.value > i);
  }

  /** Scores are read off the branch that decides. */
  lemma ScoreIs(msg: string, table: seq<Branch<int>>, i: nat)
    requires i < |table| && Fires(msg, table[i])
    requires forall j :: 0 <= j < i ==> !Fires(msg, table[j])
    ensures ScoreOf(msg, table) == table[i].out
  {
    var r := FirstMatch(msg, table);
    assert r.Some?;
    assert !(r.value < i);
    assert !(r.value > i);
  }

  /** What a chain-and-emit `processLine` attempts: the text of the deciding
      branch, filed under `cat` with the rule's score for it. */
  function ChainHits(s: string, cat: Category, bs: seq<Branch<string>>, table: seq<Branch<int>>): (r: seq<Emission>)
    ensures |r| <= 1
    ensures r != [] <==> FirstMatch(s, bs).Some?
    ensures r != [] ==> r[0] == Emission(cat, bs[FirstMatch(s, bs).value].out, ScoreOf(bs[FirstMatch(s, bs).value].out, table))
  {
    match FirstMatch(s, bs)
    case None => []
    case Some(i) => [Emission(cat, bs[i].out, ScoreOf(bs[i].out, table))]
  }

  /** `std::string report_str; if (..) report_str = ..; else if ..;
      if (!report_str.empty()) { insert; add score if new }`. Every
      branch text is non-empty, so the emptiness test is the same as
      "some branch fired". */
  method EmitFirstMatch(report: ReportData, line: string, cat: Category,
                        bs: seq<Branch<string>>, table: seq<Branch<int>>)
    requires forall i :: 0 <= i < |bs| ==> bs[i].out != ""
    modifies report
    ensures report.Scoring() == EmittedAll(old(report.Scoring()), ChainHits(line, cat, bs, table))
    ensures report.Metadata() == old(report.Metadata())
  {
    var reportStr := "";
    match FirstMatch(line, bs) {
      case Some(i) => reportStr := bs[i].out;
      case None =>
    }
    if reportStr != "" {
      var _ := report.Emit(Emission(cat, reportStr, ScoreOf(reportStr, table)));
    }
  }
}
