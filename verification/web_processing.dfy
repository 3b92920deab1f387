/**
 * The deterministic parts of utils/web_processing.py: projecting and
 * truncating search-provider results, and the domain reliability score of
 * `SourceEvaluator`. The provider call, robots.txt checks and page loading
 * are oracles of the orchestrator and do not appear here.
 */
module WebProcessing {
  import opened Wrappers
  import opened Documents

  /** The default cap on results kept from one provider call. */
  const MaxSearchResults: nat := 5

  /** The only raw result fields copied into a source's metadata. */
  const KeptFields: set<string> := {"source", "link", "date"}

  /**
   * `retrieve_search_results`: `organic` is the provider's `organic_results`
   * list, `None` when the response has no such key. Each item keeps only its
   * `source`, `link` and `date` fields; at most `maxResults` items are kept,
   * in provider order.
   */
  function RetrieveSearchResults(organic: Option<seq<Metadata>>, maxResults: nat): (r: seq<Source>)
    ensures organic.None? ==> r == []
    ensures organic.Some? ==> |r| == if |organic.value| < maxResults then |organic.value| else maxResults
    ensures forall i :: 0 <= i < |r| ==> !r[i].storedInDb
    ensures organic.Some? ==> forall i, k :: 0 <= i < |r| ==>
      (k in r[i].metadata <==> k in KeptFields && k in organic.value[i])
    ensures organic.Some? ==> forall i, k :: 0 <= i < |r| && k in r[i].metadata ==>
      k in organic.value[i] && r[i].metadata[k] == organic.value[i][k]
  {
    match organic
    case None => []
    case Some(items) =>
      var n := if |items| < maxResults then |items| else maxResults;
      seq(n, i requires 0 <= i < n => Source(map k | k in items[i] && k in KeptFields :: items[i][k], false))
  }

  // ---------------------------------------------------------------------
  // Patterns
  // ---------------------------------------------------------------------

  /**
   * The regular expressions the evaluator uses are literals, optionally
   * anchored with `$`, and one concatenation of two anchored literals.
   */
  datatype Pattern = Lit(text: string, anchored: bool) | Concat(first: Pattern, second: Pattern)

  /** `$` matches at the end of the text or just before a final newline. */
  predicate AtEnd(d: string, j: nat)
  {
    j == |d| || (j + 1 == |d| && d[j] == '\n')
  }

  /** The literal `t` occurs in `d` starting at position `i`, compared character by character. */
  predicate OccursAt(d: string, t: string, i: nat)
    decreases |t|
  {
    |t| == 0 || (i < |d| && d[i] == t[0] && OccursAt(d, t[1..], i + 1))
  }

  /** Character-wise occurrence is slice equality. */
  lemma {:induction false} OccursAtIsSlice(d: string, t: string, i: nat)
    requires i <= |d|
    ensures OccursAt(d, t, i) <==> i + |t| <= |d| && d[i..i + |t|] == t
    decreases |t|
  {
    if |t| > 0 {
      if i + 1 <= |d| {
        OccursAtIsSlice(d, t[1..], i + 1);
      }
      if OccursAt(d, t, i) {
        assert d[i..i + |t|] == [d[i]] + d[i + 1..i + |t|];
        assert t == [t[0]] + t[1..];
      }
      if i + |t| <= |d| && d[i..i + |t|] == t {
        assert d[i] == d[i..i + |t|][0];
        assert d[i + 1..i + |t|] == d[i..i + |t|][1..];
      }
    }
  }

  /** The end position of a match of `p` starting at position `i` of `d`. */
  function MatchFrom(p: Pattern, d: string, i: nat): (r: Option<nat>)
    requires i <= |d|
    ensures r.Some? ==> i <= r.value <= |d|
  {
    match p
    case Lit(t, anchored) =>
      if i + |t| <= |d| && OccursAt(d, t, i) && (!anchored || AtEnd(d, i + |t|))
      then Some(i + |t|) else None
    case Concat(p1, p2) =>
      match MatchFrom(p1, d, i)
      case None => None
      case Some(j) => MatchFrom(p2, d, j)
  }

  /** A match of `p` starts at some position from `i` on. */
  predicate SearchFrom(p: Pattern, d: string, i: nat)
    requires i <= |d|
    decreases |d| - i
  {
    MatchFrom(p, d, i).Some? || (i < |d| && SearchFrom(p, d, i + 1))
  }

  /** `re.search`: the pattern matches somewhere in the text. */
  predicate Search(p: Pattern, d: string)
  {
    SearchFrom(p, d, 0)
  }

  /** A match starting at any position from `i` on makes the scan succeed. */
  lemma {:induction false} SearchFromWitness(p: Pattern, d: string, i: nat, k: nat)
    requires i <= k <= |d| && MatchFrom(p, d, k).Some?
    ensures SearchFrom(p, d, i)
    decreases k - i
  {
    if i < k {
      SearchFromWitness(p, d, i + 1, k);
    }
  }

  /** A successful scan from `i` names the position where the match starts. */
  lemma {:induction false} SearchFromFinds(p: Pattern, d: string, i: nat) returns (k: nat)
    requires i <= |d| && SearchFrom(p, d, i)
    ensures i <= k <= |d| && MatchFrom(p, d, k).Some?
    decreases |d| - i
  {
    if MatchFrom(p, d, i).Some? {
      k := i;
    } else {
      k := SearchFromFinds(p, d, i + 1);
    }
  }

  /** `t` occurs somewhere in `d`. */
  predicate Contains(d: string, t: string)
  {
    exists i: nat :: i + |t| <= |d| && OccursAt(d, t, i)
  }

  /** An unanchored literal pattern matches exactly when the literal occurs. */
  lemma LiteralSearchIsContains(t: string, d: string)
    ensures Search(Lit(t, false), d) <==> Contains(d, t)
  {
    if Contains(d, t) {
      var i: nat :| i + |t| <= |d| && OccursAt(d, t, i);
      SearchFromWitness(Lit(t, false), d, 0, i);
    }
    if Search(Lit(t, false), d) {
      var k := SearchFromFinds(Lit(t, false), d, 0);
      assert k + |t| <= |d| && OccursAt(d, t, k);
    }
  }

  // ---------------------------------------------------------------------
  // SourceEvaluator
  // ---------------------------------------------------------------------

  /** An authority pattern and the score it grants. */
  datatype Authority = Authority(pattern: Pattern, score: real)

  /**
   * The authority table in its iteration order. The optional trailing dot of
   * the `.edu` and `.gov` expressions never changes whether a search
   * succeeds, so they are plain literals here.
   */
  const AuthorityDomains: seq<Authority> := [
    Authority(Lit(".org", false), 0.9),
    Authority(Lit(".edu", false), 0.85),
    Authority(Lit(".gov", false), 0.9)
  ]

  /**
   * The red-flag list as written: a missing comma fuses the `.top` and
   * `.info` suffixes into a single expression, the eighth entry.
   */
  const RedFlags: seq<Pattern> := [
    Lit(".xyz", true), Lit(".club", true), Lit(".biz", true), Lit(".click", true),
    Lit(".tk", true), Lit(".ga", true), Lit(".cf", true),
    Concat(Lit(".top", true), Lit(".info", true)),
    Lit("free-", false), Lit("-free", false), Lit("win-", false),
    Lit("bonus", false), Lit("prize", false)
  ]

  /** The red-flag list with the comma restored: `.top` and `.info` apart. */
  const IntendedRedFlags: seq<Pattern> :=
    RedFlags[..7] + [Lit(".top", true), Lit(".info", true)] + RedFlags[8..]

  const DefaultScore: real := 0.5
  const Penalty: real := 0.7

  function Max(a: real, b: real): real
  {
    if a >= b then a else b
  }

  /** The score before penalties: the first matching authority entry, else 0.5. */
  function AuthorityScore(table: seq<Authority>, d: string): real
  {
    if |table| == 0 then DefaultScore
    else if Search(table[0].pattern, d) then Max(DefaultScore, table[0].score)
    else AuthorityScore(table[1..], d)
  }

  /** The number of patterns of `flags` that match `d`. */
  function MatchCount(flags: seq<Pattern>, d: string): (n: nat)
    ensures n <= |flags|
  {
    if |flags| == 0 then 0
    else (if Search(flags[0], d) then 1 else 0) + MatchCount(flags[1..], d)
  }

  function Pow(x: real, n: nat): real
  {
    if n == 0 then 1.0 else x * Pow(x, n - 1)
  }

  /** Multiplies `score` by 0.7 once for every matching red flag. */
  function ApplyRedFlags(flags: seq<Pattern>, d: string, score: real): real
  {
    if |flags| == 0 then score
    else
      var s := if Search(flags[0], d) then score * Penalty else score;
      ApplyRedFlags(flags[1..], d, s)
  }

  /** The number of dots in `d`. */
  function DotCount(d: string): nat
  {
    if |d| == 0 then 0 else (if d[0] == '.' then 1 else 0) + DotCount(d[1..])
  }

  /** The reliability score of a lower-cased domain for a red-flag list. */
  function ScoreWith(flags: seq<Pattern>, d: string): real
  {
    var s := ApplyRedFlags(flags, d, AuthorityScore(AuthorityDomains, d));
    if DotCount(d) > 3 then s * Penalty else s
  }

  /** `SourceEvaluator.__call__` on a lower-cased domain, red flags as written. */
  function Score(d: string): real
  {
    ScoreWith(RedFlags, d)
  }

  /**
   * At most one authority entry applies: the first in table order whose
   * literal occurs in the domain; a domain with none starts at 0.5.
   */
  lemma {:induction false} AuthorityFirstMatch(d: string)
    ensures Contains(d, ".org") ==> AuthorityScore(AuthorityDomains, d) == 0.9
    ensures !Contains(d, ".org") && Contains(d, ".edu") ==> AuthorityScore(AuthorityDomains, d) == 0.85
    ensures !Contains(d, ".org") && !Contains(d, ".edu") && Contains(d, ".gov") ==>
      AuthorityScore(AuthorityDomains, d) == 0.9
    ensures !Contains(d, ".org") && !Contains(d, ".edu") && !Contains(d, ".gov") ==>
      AuthorityScore(AuthorityDomains, d) == 0.5
  {
    LiteralSearchIsContains(".org", d);
    LiteralSearchIsContains(".edu", d);
    LiteralSearchIsContains(".gov", d);
    var t := AuthorityDomains;
    assert t[0].pattern == Lit(".org", false) && t[0].score == 0.9;
    assert t[1..][0].pattern == Lit(".edu", false) && t[1..][0].score == 0.85;
    assert t[1..][1..][0].pattern == Lit(".gov", false) && t[1..][1..][0].score == 0.9;
    assert t[1..][1..][1..] == [];
    assert AuthorityScore(t[1..][1..][1..], d) == 0.5;
    assert AuthorityScore(t[1..][1..], d) == if Search(Lit(".gov", false), d) then 0.9 else 0.5;
    assert AuthorityScore(t[1..], d) ==
      if Search(Lit(".edu", false), d) then 0.85 else AuthorityScore(t[1..][1..], d);
  }

  /** The authority score of any table with scores in (0, 0.9] lies in [0.5, 0.9]. */
  lemma {:induction false} AuthorityScoreBounds(table: seq<Authority>, d: string)
    requires forall i :: 0 <= i < |table| ==> table[i].score <= 0.9
    ensures 0.5 <= AuthorityScore(table, d) <= 0.9
  {
    if |table| > 0 && !Search(table[0].pattern, d) {
      AuthorityScoreBounds(table[1..], d);
    }
  }

  /** Each matching red flag multiplies the score by 0.7, and nothing else does. */
  lemma {:induction false} RedFlagsArePowers(flags: seq<Pattern>, d: string, score: real)
    ensures ApplyRedFlags(flags, d, score) == score * Pow(Penalty, MatchCount(flags, d))
  {
    if |flags| > 0 {
      var s := if Search(flags[0], d) then score * Penalty else score;
      RedFlagsArePowers(flags[1..], d, s);
    }
  }

  lemma {:induction false} PowBounds(n: nat)
    ensures 0.0 < Pow(Penalty, n) <= 1.0
    ensures n > 0 ==> Pow(Penalty, n) <= Penalty
  {
    if n > 0 {
      PowBounds(n - 1);
    }
  }

  /**
   * The score lies in (0, 0.9] for any red-flag list, and penalties never
   * raise it above the authority score.
   */
  lemma ScoreBounds(flags: seq<Pattern>, d: string)
    ensures 0.0 < ScoreWith(flags, d) <= AuthorityScore(AuthorityDomains, d) <= 0.9
  {
    var a := AuthorityScore(AuthorityDomains, d);
    AuthorityScoreBounds(AuthorityDomains, d);
    RedFlagsArePowers(flags, d, a);
    PowBounds(MatchCount(flags, d));
    var p := Pow(Penalty, MatchCount(flags, d));
    assert 0.0 < a * p <= a;
  }

  /** A matching red flag lowers the score to at most 0.7 of the authority score. */
  lemma PenalisedWhenFlagged(flags: seq<Pattern>, d: string)
    requires MatchCount(flags, d) > 0
    ensures ScoreWith(flags, d) <= 0.7 * AuthorityScore(AuthorityDomains, d)
  {
    var a := AuthorityScore(AuthorityDomains, d);
    AuthorityScoreBounds(AuthorityDomains, d);
    RedFlagsArePowers(flags, d, a);
    PowBounds(MatchCount(flags, d));
    var p := Pow(Penalty, MatchCount(flags, d));
    var s := ApplyRedFlags(flags, d, a);
    assert s == a * p;
    assert 0.5 <= a && 0.0 < p <= 0.7;
    PenaltyScales(a, p, s);
    assert ScoreWith(flags, d) <= s;
  }

  lemma PenaltyScales(a: real, p: real, s: real)
    requires 0.0 <= a && 0.0 < p <= 0.7 && s == a * p
    ensures 0.0 <= s <= a * 0.7
  {
  }

  /** A domain with more than three dots loses at least 30% of its authority score, flagged or not. */
  lemma ManyDotsPenalised(flags: seq<Pattern>, d: string)
    requires DotCount(d) > 3
    ensures ScoreWith(flags, d) <= 0.7 * AuthorityScore(AuthorityDomains, d)
  {
    var a := AuthorityScore(AuthorityDomains, d);
    AuthorityScoreBounds(AuthorityDomains, d);
    RedFlagsArePowers(flags, d, a);
    PowBounds(MatchCount(flags, d));
    var s := ApplyRedFlags(flags, d, a);
    ScaledBelow(a, Pow(Penalty, MatchCount(flags, d)), s);
    assert ScoreWith(flags, d) == s * Penalty;
  }

  lemma ScaledBelow(a: real, p: real, s: real)
    requires 0.0 < a && 0.0 < p <= 1.0 && s == a * p
    ensures 0.0 < s <= a
  {
  }

  /** The fused `.top`/`.info` expression cannot match any domain. */
  lemma FusedSuffixNeverMatches(d: string)
    ensures !Search(RedFlags[7], d)
  {
    if Search(RedFlags[7], d) {
      var k := SearchFromFinds(RedFlags[7], d, 0);
      assert false;
    }
  }

  /** A list none of whose patterns match leaves the score unpenalised. */
  lemma {:induction false} NoMatchNoPenalty(flags: seq<Pattern>, d: string)
    requires forall i :: 0 <= i < |flags| ==> !Search(flags[i], d)
    ensures MatchCount(flags, d) == 0
  {
    if |flags| > 0 {
      NoMatchNoPenalty(flags[1..], d);
    }
  }

  /** "news.top" carries none of the authority literals. */
  lemma NewsTopAuthority()
    ensures AuthorityScore(AuthorityDomains, "news.top") == 0.5
  {
    var d := "news.top";
    assert !Search(Lit(".org", false), d);
    assert !Search(Lit(".edu", false), d);
    assert !Search(Lit(".gov", false), d);
    LiteralSearchIsContains(".org", d);
    LiteralSearchIsContains(".edu", d);
    LiteralSearchIsContains(".gov", d);
    AuthorityFirstMatch(d);
  }

  /** As written, a `.top` domain with no other warning sign keeps the default score. */
  lemma TopDomainNotPenalised()
    ensures Score("news.top") == 0.5
  {
    var d := "news.top";
    NewsTopAuthority();
    NewsTopNoFlags();
    RedFlagsArePowers(RedFlags, d, 0.5);
    NewsTopDots();
  }

  lemma NewsTopNoFlags()
    ensures MatchCount(RedFlags, "news.top") == 0
  {
    forall i | 0 <= i < |RedFlags| ensures !Search(RedFlags[i], "news.top") {
      NewsTopFlags(i);
    }
    NoMatchNoPenalty(RedFlags, "news.top");
  }

  lemma NewsTopDots()
    ensures DotCount("news.top") == 1
  {
  }

  lemma {:induction false} MatchCountAppend(a: seq<Pattern>, b: seq<Pattern>, d: string)
    ensures MatchCount(a + b, d) == MatchCount(a, d) + MatchCount(b, d)
  {
    if |a| > 0 {
      assert (a + b)[0] == a[0];
      assert (a + b)[1..] == a[1..] + b;
      MatchCountAppend(a[1..], b, d);
    } else {
      assert a + b == b;
    }
  }

  /** Exactly one intended red flag, the `.top` suffix, matches "news.top". */
  lemma IntendedNewsTopCount()
    ensures MatchCount(IntendedRedFlags, "news.top") == 1
  {
    var d := "news.top";
    var head := RedFlags[..7];
    var tail := RedFlags[8..];
    var mid := [Lit(".top", true), Lit(".info", true)];
    assert IntendedRedFlags == head + mid + tail;
    NewsTopHead();
    NewsTopTail();
    NewsTopMid();
    MatchCountAppend(head, mid, d);
    MatchCountAppend(head + mid, tail, d);
  }

  lemma NewsTopHead()
    ensures MatchCount(RedFlags[..7], "news.top") == 0
  {
    var head := RedFlags[..7];
    forall i | 0 <= i < |head| ensures !Search(head[i], "news.top") {
      NewsTopFlags(i);
    }
    NoMatchNoPenalty(head, "news.top");
  }

  lemma NewsTopTail()
    ensures MatchCount(RedFlags[8..], "news.top") == 0
  {
    var tail := RedFlags[8..];
    forall i | 0 <= i < |tail| ensures !Search(tail[i], "news.top") {
      NewsTopFlags(i + 8);
    }
    NoMatchNoPenalty(tail, "news.top");
  }

  lemma NewsTopMid()
    ensures MatchCount([Lit(".top", true), Lit(".info", true)], "news.top") == 1
  {
    var mid := [Lit(".top", true), Lit(".info", true)];
    assert Search(Lit(".top", true), "news.top");
    assert !Search(Lit(".info", true), "news.top");
    assert mid[1..] == [Lit(".info", true)];
  }

  /** With the comma restored, the same domain is penalised exactly once. */
  lemma TopDomainPenalisedWhenIntended()
    ensures ScoreWith(IntendedRedFlags, "news.top") == 0.35
  {
    var d := "news.top";
    NewsTopAuthority();
    IntendedNewsTopCount();
    RedFlagsArePowers(IntendedRedFlags, d, 0.5);
    assert Pow(Penalty, 1) == 0.7;
    NewsTopDots();
  }

  lemma {:induction false} MatchCountPositive(flags: seq<Pattern>, d: string, i: nat)
    requires i < |flags| && Search(flags[i], d)
    ensures MatchCount(flags, d) >= 1
  {
    if i > 0 {
      MatchCountPositive(flags[1..], d, i - 1);
    }
  }

  /** An anchored literal matches every text that ends with it. */
  lemma SuffixMatches(d: string, t: string)
    requires |t| <= |d| && d[|d| - |t|..] == t
    ensures Search(Lit(t, true), d)
  {
    var k := |d| - |t|;
    OccursAtIsSlice(d, t, k);
    assert d[k..k + |t|] == t;
    assert MatchFrom(Lit(t, true), d, k).Some?;
    SearchFromWitness(Lit(t, true), d, 0, k);
  }

  lemma IntendedSuffixEntries()
    ensures IntendedRedFlags[7] == Lit(".top", true)
    ensures IntendedRedFlags[8] == Lit(".info", true)
  {
  }

  /** With the comma restored, every domain ending in `.top` or `.info` is penalised. */
  lemma IntendedPenalisesTopAndInfo(d: string, suffix: string)
    requires suffix == ".top" || suffix == ".info"
    requires |suffix| <= |d| && d[|d| - |suffix|..] == suffix
    ensures ScoreWith(IntendedRedFlags, d) <= 0.7 * AuthorityScore(AuthorityDomains, d)
  {
    SuffixMatches(d, suffix);
    IntendedSuffixEntries();
    if suffix == ".top" {
      MatchCountPositive(IntendedRedFlags, d, 7);
    } else {
      MatchCountPositive(IntendedRedFlags, d, 8);
    }
    PenalisedWhenFlagged(IntendedRedFlags, d);
  }

  /** A literal holding a character the text lacks never matches it. */
  lemma AbsentCharNoMatch(t: string, anchored: bool, d: string, j: nat)
    requires j < |t| && t[j] !in d
    ensures !Search(Lit(t, anchored), d)
  {
    if Search(Lit(t, anchored), d) {
      var k := SearchFromFinds(Lit(t, anchored), d, 0);
      OccursAtIsSlice(d, t, k);
      assert false;
    }
  }

  lemma NewsTopFlags(i: nat)
    requires i < |RedFlags|
    ensures !Search(RedFlags[i], "news.top")
  {
    var d := "news.top";
    if i == 7 {
      FusedSuffixNeverMatches(d);
    } else {
      var t := RedFlags[i].text;
      var j: nat := if i in {1, 3, 6, 10, 12} then 1 else if i in {0, 2, 4, 5, 9} then 2 else 0;
      assert t[j] !in d by {
        if i == 0 {} else if i == 1 {} else if i == 2 {} else if i == 3 {} else if i == 4 {}
        else if i == 5 {} else if i == 6 {} else if i == 8 {} else if i == 9 {} else if i == 10 {}
        else if i == 11 {} else if i == 12 {} else {}
      }
      AbsentCharNoMatch(t, RedFlags[i].anchored, d, j);
    }
  }

}
