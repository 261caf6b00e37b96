/**
 * Automatic NAMASTE-to-ICD mapping by word overlap: the Jaccard similarity of the
 * two texts' word sets, a threshold of 0.3, an equivalence band per similarity,
 * the three best candidates per NAMASTE code, and a run over all codes that
 * creates each mapping that does not exist yet.  The database is the set of
 * mapping keys already present.
 */
module AutoMap {
  import opened Wrappers
  import opened Strings
  import opened Terminology

  const Threshold: real := 0.3
  const MaxMatches: nat := 3
  const AutoMapper: string := "auto-mapper"

  // ---------------------------------------------------------------------------
  // Similarity

  lemma SubsetCardinality<T>(a: set<T>, b: set<T>)
    requires a <= b
    ensures |a| <= |b|
    ensures |a| == |b| ==> a == b
  {
    assert b == a + (b - a);
    if |a| == |b| {
      assert |b - a| == 0;
    }
  }

  /** The distinct pieces of `text` split at runs of whitespace (an empty piece included). */
  function Words(text: string): (w: set<string>)
    ensures |w| >= 1
  {
    var pieces := SplitWhitespace(text);
    var w := set p | p in pieces;
    SubsetCardinality({pieces[0]}, w);
    w
  }

  /** Shared elements over all elements of two sets, not both empty. */
  function Jaccard(a: set<string>, b: set<string>): real
    requires |a + b| > 0
  {
    (|a * b| as real) / (|a + b| as real)
  }

  /** `calculateSimilarity`: the Jaccard index of the two word sets. */
  function Similarity(text1: string, text2: string): real {
    var w1, w2 := Words(text1), Words(text2);
    SubsetCardinality(w1, w1 + w2);
    Jaccard(w1, w2)
  }

  lemma Ratio(i: int, u: int)
    requires 0 <= i <= u && u > 0
    ensures 0.0 <= (i as real) / (u as real) <= 1.0
    ensures (i as real) / (u as real) == 1.0 <==> i == u
  {
    var q := (i as real) / (u as real);
    assert q * (u as real) == i as real;
  }

  /** The index lies in [0, 1] and is 1 exactly when the sets agree. */
  lemma JaccardProperties(a: set<string>, b: set<string>)
    requires |a + b| > 0
    ensures 0.0 <= Jaccard(a, b) <= 1.0
    ensures Jaccard(a, b) == 1.0 <==> a == b
  {
    SubsetCardinality(a * b, a + b);
    Ratio(|a * b|, |a + b|);
    if a * b == a + b {
      assert a == a * b && b == a * b;
    }
  }

  /** The similarity lies in [0, 1], does not depend on the order of the texts, and is 1 exactly when the word sets agree. */
  lemma SimilarityProperties(text1: string, text2: string)
    ensures 0.0 <= Similarity(text1, text2) <= 1.0
    ensures Similarity(text1, text2) == Similarity(text2, text1)
    ensures Similarity(text1, text2) == 1.0 <==> Words(text1) == Words(text2)
  {
    var w1, w2 := Words(text1), Words(text2);
    SubsetCardinality(w1, w1 + w2);
    assert w1 * w2 == w2 * w1 && w1 + w2 == w2 + w1;
    JaccardProperties(w1, w2);
  }

  /** Identical texts are fully similar. */
  lemma SameTextFullySimilar(text: string)
    ensures Similarity(text, text) == 1.0
  {
    SimilarityProperties(text, text);
  }

  /** Texts without a shared word have similarity 0. */
  lemma DisjointWordsDissimilar(text1: string, text2: string)
    requires Words(text1) * Words(text2) == {}
    ensures Similarity(text1, text2) == 0.0
  {
  }

  // ---------------------------------------------------------------------------
  // Banding and rounding

  /** The equivalence a similarity above the threshold is given. */
  function Band(similarity: real): (e: Equivalence)
    ensures e == Equivalent <==> similarity > 0.8
    ensures e == Wider <==> 0.6 < similarity <= 0.8
    ensures e == Narrower <==> 0.4 < similarity <= 0.6
    ensures e == RelatedTo <==> similarity <= 0.4
  {
    if similarity > 0.8 then Equivalent
    else if similarity > 0.6 then Wider
    else if similarity > 0.4 then Narrower
    else RelatedTo
  }

  /** `Math.round(x * 100) / 100` on exact reals: to the nearest hundredth, halves upwards. */
  function Round2(x: real): real {
    ((x * 100.0 + 0.5).Floor as real) / 100.0
  }

  /** Rounding moves a value by at most half a hundredth, keeps [0, 1], and keeps order. */
  lemma Round2Properties(x: real, y: real)
    ensures x - 0.005 < Round2(x) <= x + 0.005
    ensures 0.0 <= x <= 1.0 ==> 0.0 <= Round2(x) <= 1.0
    ensures x <= y ==> Round2(x) <= Round2(y)
  {
    var fx := (x * 100.0 + 0.5).Floor;
    assert fx as real <= x * 100.0 + 0.5 < fx as real + 1.0;
    if 0.0 <= x <= 1.0 {
      assert 0 <= fx <= 100;
    }
    if x <= y {
      var fy := (y * 100.0 + 0.5).Floor;
      assert fy as real <= y * 100.0 + 0.5 < fy as real + 1.0;
      assert fx <= fy;
    }
  }

  // ---------------------------------------------------------------------------
  // Candidates of one NAMASTE code

  datatype PotentialMatch = PotentialMatch(icdCode: IcdCode, equivalence: Equivalence, confidence: real)

  function NamasteText(n: NamasteCode): string {
    ToLower(n.name + " " + n.description)
  }

  function IcdText(c: IcdCode): string {
    ToLower(c.title + " " + c.description.GetOr(""))
  }

  /** The match an ICD code gives when its similarity to `text` is above the threshold. */
  function MatchFor(text: string, c: IcdCode): PotentialMatch {
    var s := Similarity(text, IcdText(c));
    PotentialMatch(c, Band(s), Round2(s))
  }

  predicate Qualifies(text: string, c: IcdCode) {
    Similarity(text, IcdText(c)) > Threshold
  }

  /**
   * The matches in input order: one per ICD code above the threshold, none for
   * the others, so no input code yields two.
   */
  function Candidates(text: string, icds: seq<IcdCode>): (ms: seq<PotentialMatch>)
    ensures forall m :: m in ms ==> m.icdCode in icds && Qualifies(text, m.icdCode) && m == MatchFor(text, m.icdCode)
    ensures forall c :: c in icds && Qualifies(text, c) ==> MatchFor(text, c) in ms
    ensures forall c :: multiset(ms)[MatchFor(text, c)] <= multiset(icds)[c]
  {
    if icds == [] then []
    else
      var init, last := icds[..|icds| - 1], icds[|icds| - 1];
      assert icds == init + [last];
      var rest := Candidates(text, init);
      if Qualifies(text, last) then
        rest + [MatchFor(text, last)]
      else rest
  }

  /** Every candidate's confidence, rounded from a similarity above 0.3, lies in [0.3, 1]. */
  lemma CandidateConfidence(text: string, icds: seq<IcdCode>)
    ensures forall m :: m in Candidates(text, icds) ==> 0.3 <= m.confidence <= 1.0
  {
    forall m | m in Candidates(text, icds)
      ensures 0.3 <= m.confidence <= 1.0
    {
      var s := Similarity(text, IcdText(m.icdCode));
      SimilarityProperties(text, IcdText(m.icdCode));
      Round2Properties(0.3, s);
      Round2Properties(s, 1.0);
      assert Round2(0.3) == 0.3 by {
        assert (0.3 * 100.0 + 0.5).Floor == 30;
      }
      assert Round2(1.0) == 1.0 by {
        assert (1.0 * 100.0 + 0.5).Floor == 100;
      }
    }
  }

  // ---------------------------------------------------------------------------
  // Sorting by confidence

  predicate SortedByConfidence(ms: seq<PotentialMatch>) {
    forall i, j :: 0 <= i < j < |ms| ==> ms[i].confidence >= ms[j].confidence
  }

  lemma ConsSorted(x: PotentialMatch, t: seq<PotentialMatch>)
    requires SortedByConfidence(t) && (|t| > 0 ==> x.confidence >= t[0].confidence)
    ensures SortedByConfidence([x] + t)
  {
    var r := [x] + t;
    forall i, j | 0 <= i < j < |r|
      ensures r[i].confidence >= r[j].confidence
    {
      if i > 0 {
        assert r[i] == t[i - 1] && r[j] == t[j - 1];
      } else {
        assert r[j] == t[j - 1];
      }
    }
  }

  /** Places `m` after every match at least as confident, so that ties keep their order. */
  function Insert(m: PotentialMatch, ms: seq<PotentialMatch>): (r: seq<PotentialMatch>)
    requires SortedByConfidence(ms)
    ensures SortedByConfidence(r)
    ensures multiset(r) == multiset(ms) + multiset{m}
    ensures r[0] == m || (|ms| > 0 && r[0] == ms[0])
  {
    if ms == [] then [m]
    else if ms[0].confidence >= m.confidence then
      var tail := Insert(m, ms[1..]);
      assert ms == [ms[0]] + ms[1..];
      ConsSorted(ms[0], tail);
      [ms[0]] + tail
    else
      ConsSorted(m, ms);
      [m] + ms
  }

  /** The stable sort `matches.sort((a, b) => b.confidence - a.confidence)`. */
  function SortByConfidence(ms: seq<PotentialMatch>): (r: seq<PotentialMatch>)
    ensures SortedByConfidence(r) && multiset(r) == multiset(ms)
  {
    if ms == [] then []
    else
      var init := ms[..|ms| - 1];
      assert ms == init + [ms[|ms| - 1]];
      Insert(ms[|ms| - 1], SortByConfidence(init))
  }

  function Take(ms: seq<PotentialMatch>, n: nat): seq<PotentialMatch> {
    if |ms| <= n then ms else ms[..n]
  }

  /** `findPotentialMatches` as a value: the three most confident candidates. */
  function TopMatches(text: string, icds: seq<IcdCode>): seq<PotentialMatch> {
    Take(SortByConfidence(Candidates(text, icds)), MaxMatches)
  }

  /** The first `n` of a sorted sequence: sorted, and drawn from it. */
  lemma TakeShape(sorted: seq<PotentialMatch>, n: nat)
    requires SortedByConfidence(sorted)
    ensures var top := Take(sorted, n);
      && |top| == (if |sorted| < n then |sorted| else n)
      && SortedByConfidence(top)
      && multiset(top) <= multiset(sorted)
      && (|sorted| <= n ==> top == sorted)
  {
    if |sorted| > n {
      assert sorted == sorted[..n] + sorted[n..];
    }
  }

  /** Nothing left out of the first `n` of a sorted sequence beats what was kept. */
  lemma TakeBest(sorted: seq<PotentialMatch>, n: nat)
    requires SortedByConfidence(sorted)
    ensures var top := Take(sorted, n);
      forall m: PotentialMatch, k :: m in multiset(sorted) - multiset(top) && 0 <= k < |top| ==>
        m.confidence <= top[k].confidence
  {
    var top := Take(sorted, n);
    if |sorted| > n {
      var rest := sorted[n..];
      assert sorted == top + rest;
      assert multiset(sorted) - multiset(top) == multiset(rest);
      forall m: PotentialMatch, k | m in multiset(rest) && 0 <= k < |top|
        ensures m.confidence <= top[k].confidence
      {
        var j :| 0 <= j < |rest| && rest[j] == m;
        assert sorted[n + j] == m && sorted[k] == top[k];
      }
    } else {
      assert multiset(sorted) - multiset(top) == multiset{};
    }
  }

  /**
   * At most three matches, most confident first, drawn from the candidates (all
   * of them when there are at most three), and no candidate left out is more
   * confident than a kept match.
   */
  lemma TopMatchesShape(text: string, icds: seq<IcdCode>)
    ensures var top, cands := TopMatches(text, icds), Candidates(text, icds);
      && |top| == (if |cands| < MaxMatches then |cands| else MaxMatches)
      && SortedByConfidence(top)
      && multiset(top) <= multiset(cands)
      && (|cands| <= MaxMatches ==> multiset(top) == multiset(cands))
      && forall m: PotentialMatch, k :: m in multiset(cands) - multiset(top) && 0 <= k < |top| ==>
           m.confidence <= top[k].confidence
  {
    var sorted := SortByConfidence(Candidates(text, icds));
    TakeShape(sorted, MaxMatches);
    TakeBest(sorted, MaxMatches);
  }

  /**
   * Each match is for an input ICD code above the threshold, banded and rounded
   * from its similarity, and no code is matched more often than it is listed.
   */
  lemma TopMatchesSound(text: string, icds: seq<IcdCode>)
    ensures var top := TopMatches(text, icds);
      && (forall m :: m in top ==> m.icdCode in icds && Qualifies(text, m.icdCode) && m == MatchFor(text, m.icdCode))
      && forall c :: multiset(top)[MatchFor(text, c)] <= multiset(icds)[c]
  {
    var cands := Candidates(text, icds);
    var sorted := SortByConfidence(cands);
    var top := TopMatches(text, icds);
    TopMatchesShape(text, icds);
    forall m | m in top
      ensures m in cands
    {
      assert m in multiset(top);
    }
  }

  /**
   * `findPotentialMatches`: collects the candidates in a loop over the ICD codes,
   * then sorts them and keeps the first three.
   */
  method FindPotentialMatches(n: NamasteCode, icds: seq<IcdCode>) returns (matches: seq<PotentialMatch>)
    ensures matches == TopMatches(NamasteText(n), icds)
  {
    var text := NamasteText(n);
    var found: seq<PotentialMatch> := [];
    for i := 0 to |icds|
      invariant found == Candidates(text, icds[..i])
    {
      assert icds[..i + 1][..i] == icds[..i];
      var similarity := Similarity(text, IcdText(icds[i]));
      if similarity > Threshold {
        found := found + [PotentialMatch(icds[i], Band(similarity), Round2(similarity))];
      }
    }
    assert icds[..|icds|] == icds;
    matches := Take(SortByConfidence(found), MaxMatches);
  }

  // ---------------------------------------------------------------------------
  // The mapping run

  /** The mapping a match would be stored as. */
  function ToMapping(code: string, m: PotentialMatch): Mapping {
    Mapping(code, m.icdCode.code, m.icdCode.icdType, m.equivalence, m.confidence, AutoMapper)
  }

  function MappingsOf(code: string, ms: seq<PotentialMatch>): (r: seq<Mapping>)
    ensures |r| == |ms| && forall k :: 0 <= k < |ms| ==> r[k] == ToMapping(code, ms[k])
  {
    seq(|ms|, k requires 0 <= k < |ms| => ToMapping(code, ms[k]))
  }

  /** Every match of every NAMASTE code, in processing order, as it would be stored. */
  function Proposed(namastes: seq<NamasteCode>, icds: seq<IcdCode>): seq<Mapping> {
    if namastes == [] then []
    else
      var n := namastes[|namastes| - 1];
      Proposed(namastes[..|namastes| - 1], icds) + MappingsOf(n.code, TopMatches(NamasteText(n), icds))
  }

  lemma ProposedNext(namastes: seq<NamasteCode>, icds: seq<IcdCode>, i: nat)
    requires i < |namastes|
    ensures Proposed(namastes[..i + 1], icds) ==
      Proposed(namastes[..i], icds) + MappingsOf(namastes[i].code, TopMatches(NamasteText(namastes[i]), icds))
  {
    assert namastes[..i + 1][..i] == namastes[..i];
  }

  /**
   * The `autoMap` command: for each NAMASTE code, its top matches are saved
   * unless an equal key is already stored (counted as skipped).  Nothing happens
   * when either code list is empty.
   */
  method RunAutoMap(namastes: seq<NamasteCode>, icds: seq<IcdCode>, table: MappingTable)
    returns (created: nat, skipped: nat)
    modifies table
    ensures |namastes| == 0 || |icds| == 0 ==> created == 0 && skipped == 0 && table.rows == old(table.rows)
    ensures |namastes| > 0 && |icds| > 0 ==>
      var made := Dedupe(Proposed(namastes, icds), KeysOf(old(table.rows)));
      && table.rows == old(table.rows) + made
      && created == |made|
      && created + skipped == |Proposed(namastes, icds)|
  {
    created, skipped := 0, 0;
    if |namastes| == 0 || |icds| == 0 {
      return;
    }
    ghost var existing := KeysOf(table.rows);
    for i := 0 to |namastes|
      invariant table.rows == old(table.rows) + Dedupe(Proposed(namastes[..i], icds), existing)
      invariant created == |Dedupe(Proposed(namastes[..i], icds), existing)|
      invariant created + skipped == |Proposed(namastes[..i], icds)|
    {
      var n := namastes[i];
      ghost var done := Proposed(namastes[..i], icds);
      var matches := FindPotentialMatches(n, icds);
      var batch := MappingsOf(n.code, matches);
      ProposedNext(namastes, icds, i);
      ghost var before := Dedupe(done, existing);
      ghost var rowsBefore := table.rows;
      KeysOfAppend(old(table.rows), before);
      assert KeysOf(rowsBefore) == existing + KeysOf(before);
      DedupeAppend(done, batch, existing);
      var made, passed := table.SaveNew(batch);
      ghost var after := Dedupe(batch, existing + KeysOf(before));
      assert table.rows == rowsBefore + after;
      AppendAssociative(old(table.rows), before, after);
      created, skipped := created + made, skipped + passed;
    }
    assert namastes[..|namastes|] == namastes;
  }
}
