/**
 * The ingestion command that, after accepting NAMASTE rows, derives ICD-11
 * codes from keywords in each code's name and description, stores the ones
 * not present yet, links each NAMASTE code to the derived codes whose code
 * contains its own (with `NAM` removed), and builds a ConceptMap when any
 * mapping was created.  The collections are in-memory tables.
 */
module IngestAutoMapping {
  import opened Wrappers
  import opened Strings
  import opened Terminology
  import opened FhirUtils
  import opened IngestNamaste

  const AutoGenerator: string := "auto-generator"
  const AutoConfidence: real := 0.8

  /** The four kinds of derived code, in the order they are generated. */
  datatype Derivation = Traditional | Biomedical | Neurological | Inflammatory

  const Derivations: seq<Derivation> := [Traditional, Biomedical, Neurological, Inflammatory]

  /** The keyword test for each kind. */
  function Keywords(d: Derivation): seq<string> {
    match d
    case Traditional => ["digestion", "agni", "digestive"]
    case Biomedical => ["digestion", "digestive"]
    case Neurological => ["vata", "wind", "nervous"]
    case Inflammatory => ["pitta", "fire", "inflammation"]
  }

  /** The lower-cased text the keywords are looked for in. */
  function KeywordText(n: NamasteCode): string {
    ToLower(n.name + " " + n.description)
  }

  predicate Triggers(d: Derivation, text: string) {
    exists k :: 0 <= k < |Keywords(d)| && Contains(text, Keywords(d)[k])
  }

  /** The NAMASTE code with its first `NAM` removed. */
  function Stripped(code: string): string {
    ReplaceFirst(code, "NAM", "")
  }

  /** The ICD code of each kind derived from `n`; its system names its type and its version is 11. */
  function Derived(d: Derivation, n: NamasteCode): (c: IcdCode)
    ensures c.system == IcdApiBase + IcdTypeName(c.icdType) && c.version == "11"
    ensures c.icdType == TM2 <==> d == Traditional
  {
    var s := Stripped(n.code);
    match d
    case Traditional =>
      IcdCode("TM2-" + s, "Traditional Medicine: " + n.name, TM2,
              Some("Traditional medicine equivalent of " + n.description), IcdApiBase + "TM2", "11")
    case Biomedical =>
      IcdCode("BD-" + s, "Biomedical: " + n.name, Biomedicine,
              Some("Biomedical equivalent of " + n.description), IcdApiBase + "Biomedicine", "11")
    case Neurological =>
      IcdCode("BD-" + s + "-N", "Neurological: " + n.name, Biomedicine,
              Some("Neurological equivalent of " + n.description), IcdApiBase + "Biomedicine", "11")
    case Inflammatory =>
      IcdCode("BD-" + s + "-I", "Inflammatory: " + n.name, Biomedicine,
              Some("Inflammatory equivalent of " + n.description), IcdApiBase + "Biomedicine", "11")
  }

  /** One keyword test: the derived code of kind `d` when one of its keywords occurs. */
  function Emit(d: Derivation, n: NamasteCode): (r: seq<IcdCode>)
    ensures |r| <= 1 && forall c :: c in r ==> c == Derived(d, n)
  {
    if Triggers(d, KeywordText(n)) then [Derived(d, n)] else []
  }

  /** `generateICDCodesFromNAMASTE`: the four keyword tests in turn, each appending at most one code. */
  function GenerateIcdCodes(n: NamasteCode): (r: seq<IcdCode>)
    ensures |r| <= 4
    ensures forall c :: c in r ==> c.system == IcdApiBase + IcdTypeName(c.icdType) && c.version == "11"
  {
    Emit(Traditional, n) + Emit(Biomedical, n) + Emit(Neurological, n) + Emit(Inflammatory, n)
  }

  /** The derived codes of the kinds in `ds` whose keywords occur in `n`'s text, in the order of `ds`. */
  function DerivedByKeywords(ds: seq<Derivation>, n: NamasteCode): seq<IcdCode> {
    if ds == [] then []
    else (if Triggers(ds[0], KeywordText(n)) then [Derived(ds[0], n)] else []) + DerivedByKeywords(ds[1..], n)
  }

  /** The keyword lists are the source's disjunctions of `includes` tests. */
  lemma KeywordTests(d: Derivation, text: string)
    ensures d == Traditional ==>
      (Triggers(d, text) <==> Contains(text, "digestion") || Contains(text, "agni") || Contains(text, "digestive"))
    ensures d == Biomedical ==> (Triggers(d, text) <==> Contains(text, "digestion") || Contains(text, "digestive"))
    ensures d == Neurological ==>
      (Triggers(d, text) <==> Contains(text, "vata") || Contains(text, "wind") || Contains(text, "nervous"))
    ensures d == Inflammatory ==>
      (Triggers(d, text) <==> Contains(text, "pitta") || Contains(text, "fire") || Contains(text, "inflammation"))
  {
    var w := Keywords(d);
    assert |w| >= 2 && w[0] == Keywords(d)[0] && w[1] == Keywords(d)[1];
    if |w| == 3 {
      assert w[2] == Keywords(d)[2];
    }
  }

  /**
   * The generated codes are the derived codes of the kinds whose keywords
   * occur, in the fixed order traditional, biomedical, neurological,
   * inflammatory: each kind at most once.
   */
  lemma GenerationOrder(n: NamasteCode)
    ensures GenerateIcdCodes(n) == DerivedByKeywords(Derivations, n)
  {
    var ds := Derivations;
    assert ds[1..] == [Biomedical, Neurological, Inflammatory];
    assert ds[1..][1..] == [Neurological, Inflammatory];
    assert ds[1..][1..][1..] == [Inflammatory];
    assert ds[1..][1..][1..][1..] == [];
    assert DerivedByKeywords([], n) == [];
    var t, b, v, f := Emit(Traditional, n), Emit(Biomedical, n), Emit(Neurological, n), Emit(Inflammatory, n);
    assert DerivedByKeywords([Inflammatory], n) == f;
    assert DerivedByKeywords([Neurological, Inflammatory], n) == v + f;
    assert DerivedByKeywords([Biomedical, Neurological, Inflammatory], n) == b + (v + f);
    assert t + (b + (v + f)) == t + b + v + f;
  }

  /** Codes of different kinds differ (their titles start differently). */
  lemma DerivedDistinct(n: NamasteCode, d: Derivation, e: Derivation)
    requires d != e
    ensures Derived(d, n) != Derived(e, n)
  {
    assert Derived(d, n).title[0] != Derived(e, n).title[0];
  }

  /** A code of a kind is generated exactly when one of that kind's keywords occurs. */
  lemma GeneratedIffKeyword(n: NamasteCode, d: Derivation)
    ensures Derived(d, n) in GenerateIcdCodes(n) <==> Triggers(d, KeywordText(n))
  {
    forall e | e != d
      ensures Derived(e, n) != Derived(d, n)
    {
      DerivedDistinct(n, e, d);
    }
  }

  /** A biomedical base code never comes without the traditional one (its keywords are a subset). */
  lemma BiomedicalComesWithTraditional(n: NamasteCode)
    ensures Derived(Biomedical, n) in GenerateIcdCodes(n) ==> Derived(Traditional, n) in GenerateIcdCodes(n)
  {
    GeneratedIffKeyword(n, Biomedical);
    GeneratedIffKeyword(n, Traditional);
    KeywordTests(Biomedical, KeywordText(n));
    KeywordTests(Traditional, KeywordText(n));
  }

  /** Each generated code contains the stripped NAMASTE code, so it is related to its origin. */
  lemma GeneratedRelatedToOrigin(n: NamasteCode, c: IcdCode)
    requires c in GenerateIcdCodes(n)
    ensures Contains(c.code, Stripped(n.code))
  {
    var d :| c == Derived(d, n);
    DerivedContainsStripped(d, n);
  }

  lemma DerivedContainsStripped(d: Derivation, n: NamasteCode)
    ensures Contains(Derived(d, n).code, Stripped(n.code))
  {
    var s, code := Stripped(n.code), Derived(d, n).code;
    var prefix := if d == Traditional then "TM2-" else "BD-";
    assert code[|prefix|..][..|s|] == s;
    ContainsAt(code, s, |prefix|);
  }

  /**
   * Substring matching also relates codes derived from other NAMASTE codes:
   * `NAM1` is related to `TM2-12`, derived from `NAM12`.
   */
  lemma RelatedAcrossCodes()
    ensures Stripped("NAM1") == "1" && Contains("TM2-12", "1")
  {
    assert StartsWith("NAM1", "NAM");
    assert "TM2-12"[4..][..1] == "1";
    ContainsAt("TM2-12", "1", 4);
  }

  // ---------------------------------------------------------------------------
  // The ICD code collection

  /** What identifies an ICD code when the command looks for an existing one. */
  datatype IcdKey = IcdKey(code: string, icdType: IcdType)

  function IcdKeyOf(c: IcdCode): IcdKey {
    IcdKey(c.code, c.icdType)
  }

  predicate Stored(rows: seq<IcdCode>, key: IcdKey) {
    exists k :: 0 <= k < |rows| && IcdKeyOf(rows[k]) == key
  }

  /** The rows after each code of `batch` is inserted in turn unless its key is stored by then. */
  function WithMissing(rows: seq<IcdCode>, batch: seq<IcdCode>): seq<IcdCode>
    decreases |batch|
  {
    if batch == [] then rows
    else WithMissing(if Stored(rows, IcdKeyOf(batch[0])) then rows else rows + [batch[0]], batch[1..])
  }

  lemma {:induction false} WithMissingAppend(rows: seq<IcdCode>, a: seq<IcdCode>, b: seq<IcdCode>)
    ensures WithMissing(rows, a + b) == WithMissing(WithMissing(rows, a), b)
    decreases |a|
  {
    if a != [] {
      assert (a + b)[0] == a[0] && (a + b)[1..] == a[1..] + b;
      WithMissingAppend(if Stored(rows, IcdKeyOf(a[0])) then rows else rows + [a[0]], a[1..], b);
    } else {
      assert a + b == b;
    }
  }

  lemma WithMissingStep(rows: seq<IcdCode>, done: seq<IcdCode>, batch: seq<IcdCode>,
                        before: seq<IcdCode>, after: seq<IcdCode>)
    requires before == WithMissing(rows, done) && after == WithMissing(before, batch)
    ensures after == WithMissing(rows, done + batch)
  {
    WithMissingAppend(rows, done, batch);
  }

  predicate DistinctKeys(rows: seq<IcdCode>) {
    forall i, j :: 0 <= i < j < |rows| ==> IcdKeyOf(rows[i]) != IcdKeyOf(rows[j])
  }

  /**
   * Inserting keeps the existing rows as a prefix, adds only codes from the
   * batch, keeps keys distinct, and leaves every key of the batch stored.
   */
  lemma {:induction false} WithMissingProperties(rows: seq<IcdCode>, batch: seq<IcdCode>)
    requires DistinctKeys(rows)
    ensures var after := WithMissing(rows, batch);
      && |rows| <= |after| && after[..|rows|] == rows
      && (forall k :: |rows| <= k < |after| ==> after[k] in batch)
      && DistinctKeys(after)
      && (forall c :: c in batch ==> Stored(after, IcdKeyOf(c)))
    decreases |batch|
  {
    if batch != [] {
      var c := batch[0];
      var next := if Stored(rows, IcdKeyOf(c)) then rows else rows + [c];
      assert Stored(next, IcdKeyOf(c)) by {
        if !Stored(rows, IcdKeyOf(c)) {
          assert IcdKeyOf(next[|rows|]) == IcdKeyOf(c);
        }
      }
      assert next[..|rows|] == rows;
      WithMissingProperties(next, batch[1..]);
      var after := WithMissing(next, batch[1..]);
      assert after[..|next|] == next;
      StoredKept(next, after);
      forall k | |rows| <= k < |after|
        ensures after[k] in batch
      {
        if k < |next| {
          assert after[k] == next[k] == c;
        } else {
          assert after[k] in batch[1..];
        }
      }
      forall x | x in batch
        ensures Stored(after, IcdKeyOf(x))
      {
        if x != c {
          assert x in batch[1..];
        }
      }
    }
  }

  lemma StoredKept(rows: seq<IcdCode>, after: seq<IcdCode>)
    requires |rows| <= |after| && after[..|rows|] == rows
    ensures forall key :: Stored(rows, key) ==> Stored(after, key)
  {
    forall key | Stored(rows, key)
      ensures Stored(after, key)
    {
      var k :| 0 <= k < |rows| && IcdKeyOf(rows[k]) == key;
      assert after[k] == rows[k];
    }
  }

  /**
   * Every code generated for the NAMASTE codes, in processing order (each
   * code's part in the keyword-list form, equal to the generator's by
   * `GenerationOrder`).
   */
  function AllGenerated(namastes: seq<NamasteCode>): seq<IcdCode> {
    if namastes == [] then []
    else AllGenerated(namastes[..|namastes| - 1]) + DerivedByKeywords(Derivations, namastes[|namastes| - 1])
  }

  lemma AllGeneratedNext(namastes: seq<NamasteCode>, i: nat)
    requires i < |namastes|
    ensures AllGenerated(namastes[..i + 1]) == AllGenerated(namastes[..i]) + DerivedByKeywords(Derivations, namastes[i])
  {
    assert namastes[..i + 1][..i] == namastes[..i];
  }

  /** The `icd_codes` collection. */
  class IcdTable {
    var rows: seq<IcdCode>

    constructor (rows: seq<IcdCode>)
      ensures this.rows == rows
    {
      this.rows := rows;
    }

    /** The `findOne` on code and type. */
    method FindOne(key: IcdKey) returns (found: bool)
      ensures found <==> Stored(rows, key)
    {
      found := false;
      for k := 0 to |rows|
        invariant found <==> exists j :: 0 <= j < k && IcdKeyOf(rows[j]) == key
      {
        if IcdKeyOf(rows[k]) == key {
          found := true;
        }
      }
    }

    method Create(c: IcdCode)
      modifies this
      ensures rows == old(rows) + [c]
    {
      rows := rows + [c];
    }

    /** Inserts the missing codes generated for `n`. */
    method InsertGenerated(n: NamasteCode) returns (inserted: seq<IcdCode>)
      modifies this
      ensures rows == WithMissing(old(rows), DerivedByKeywords(Derivations, n)) && rows == old(rows) + inserted
    {
      GenerationOrder(n);
      inserted := InsertMissing(GenerateIcdCodes(n));
    }

    /** Inserts the codes of `batch` that are missing; returns them in insertion order. */
    method InsertMissing(batch: seq<IcdCode>) returns (inserted: seq<IcdCode>)
      modifies this
      ensures rows == WithMissing(old(rows), batch) && rows == old(rows) + inserted
    {
      inserted := [];
      for j := 0 to |batch|
        invariant WithMissing(old(rows), batch) == WithMissing(rows, batch[j..])
        invariant rows == old(rows) + inserted
      {
        assert batch[j..][0] == batch[j] && batch[j..][1..] == batch[j + 1..];
        var existing := FindOne(IcdKeyOf(batch[j]));
        if !existing {
          Create(batch[j]);
          inserted := inserted + [batch[j]];
        }
      }
    }
  }

  /**
   * `generateEquivalentICDCodes`: stores each generated code whose code and
   * type are not present yet and returns the stored ones.
   */
  method GenerateEquivalentIcdCodes(namastes: seq<NamasteCode>, table: IcdTable) returns (generated: seq<IcdCode>)
    modifies table
    ensures table.rows == WithMissing(old(table.rows), AllGenerated(namastes))
    ensures table.rows == old(table.rows) + generated
  {
    generated := [];
    for i := 0 to |namastes|
      invariant table.rows == WithMissing(old(table.rows), AllGenerated(namastes[..i]))
      invariant table.rows == old(table.rows) + generated
    {
      AllGeneratedNext(namastes, i);
      ghost var before := table.rows;
      var inserted := table.InsertGenerated(namastes[i]);
      WithMissingStep(old(table.rows), AllGenerated(namastes[..i]), DerivedByKeywords(Derivations, namastes[i]),
                      before, table.rows);
      generated := generated + inserted;
    }
    assert namastes[..|namastes|] == namastes;
  }

  /** The stored codes after generation: the old ones, then new codes with distinct keys, every generated key present. */
  lemma GenerationStoresEveryKey(rows: seq<IcdCode>, namastes: seq<NamasteCode>)
    requires DistinctKeys(rows)
    ensures var after := WithMissing(rows, AllGenerated(namastes));
      && DistinctKeys(after) && |rows| <= |after| && after[..|rows|] == rows
      && (forall k :: |rows| <= k < |after| ==> after[k] in AllGenerated(namastes))
      && (forall c :: c in AllGenerated(namastes) ==> Stored(after, IcdKeyOf(c)))
  {
    WithMissingProperties(rows, AllGenerated(namastes));
  }

  // ---------------------------------------------------------------------------
  // Mappings

  /** The generated ICD codes `createAutoMappings` relates to a NAMASTE code. */
  function RelatedCodes(n: NamasteCode, icds: seq<IcdCode>): (r: seq<IcdCode>)
    ensures forall c :: c in r <==> c in icds && Contains(c.code, Stripped(n.code))
  {
    if icds == [] then []
    else
      var init, last := icds[..|icds| - 1], icds[|icds| - 1];
      assert icds == init + [last];
      RelatedCodes(n, init) + (if Contains(last.code, Stripped(n.code)) then [last] else [])
  }

  function AutoMapping(n: NamasteCode, c: IcdCode): Mapping {
    Mapping(n.code, c.code, c.icdType, Equivalent, AutoConfidence, AutoGenerator)
  }

  function AutoMappingsOf(n: NamasteCode, cs: seq<IcdCode>): (r: seq<Mapping>)
    ensures |r| == |cs| && forall k :: 0 <= k < |cs| ==> r[k] == AutoMapping(n, cs[k])
  {
    seq(|cs|, k requires 0 <= k < |cs| => AutoMapping(n, cs[k]))
  }

  /** Every mapping the command attempts, in processing order. */
  function AutoProposed(namastes: seq<NamasteCode>, icds: seq<IcdCode>): seq<Mapping> {
    if namastes == [] then []
    else
      var n := namastes[|namastes| - 1];
      AutoProposed(namastes[..|namastes| - 1], icds) + AutoMappingsOf(n, RelatedCodes(n, icds))
  }

  /** A NAMASTE code is mapped to a derived code exactly when that code contains its stripped code. */
  lemma {:induction false} AutoProposedExactly(namastes: seq<NamasteCode>, icds: seq<IcdCode>, n: NamasteCode, c: IcdCode)
    requires n in namastes && c in icds
    ensures AutoMapping(n, c) in AutoProposed(namastes, icds) <==> Contains(c.code, Stripped(n.code))
  {
    var init, last := namastes[..|namastes| - 1], namastes[|namastes| - 1];
    assert namastes == init + [last];
    var here := AutoMappingsOf(last, RelatedCodes(last, icds));
    if last == n {
      if Contains(c.code, Stripped(n.code)) {
        var k :| 0 <= k < |RelatedCodes(n, icds)| && RelatedCodes(n, icds)[k] == c;
        assert here[k] == AutoMapping(n, c);
      }
    }
    if n in init {
      AutoProposedExactly(init, icds, n, c);
    }
    if AutoMapping(n, c) in here {
      var k :| 0 <= k < |here| && here[k] == AutoMapping(n, c);
      assert RelatedCodes(last, icds)[k] in RelatedCodes(last, icds);
    }
    if n !in init {
      assert n == last;
      if AutoMapping(n, c) in AutoProposed(init, icds) {
        AutoProposedCodes(init, icds, AutoMapping(n, c));
      }
    }
  }

  /** Every attempted mapping comes from one of the NAMASTE codes and one related ICD code. */
  lemma {:induction false} AutoProposedCodes(namastes: seq<NamasteCode>, icds: seq<IcdCode>, m: Mapping)
    requires m in AutoProposed(namastes, icds)
    ensures exists n, c :: n in namastes && c in icds && m == AutoMapping(n, c) && Contains(c.code, Stripped(n.code))
  {
    var init, last := namastes[..|namastes| - 1], namastes[|namastes| - 1];
    var here := AutoMappingsOf(last, RelatedCodes(last, icds));
    if m in AutoProposed(init, icds) {
      AutoProposedCodes(init, icds, m);
      var n, c :| n in init && c in icds && m == AutoMapping(n, c) && Contains(c.code, Stripped(n.code));
      assert n in namastes;
    } else {
      assert m in here;
      var k :| 0 <= k < |here| && here[k] == m;
      assert RelatedCodes(last, icds)[k] in RelatedCodes(last, icds);
    }
  }

  lemma AutoProposedNext(namastes: seq<NamasteCode>, icds: seq<IcdCode>, i: nat)
    requires i < |namastes|
    ensures AutoProposed(namastes[..i + 1], icds) ==
      AutoProposed(namastes[..i], icds) + AutoMappingsOf(namastes[i], RelatedCodes(namastes[i], icds))
  {
    assert namastes[..i + 1][..i] == namastes[..i];
  }

  /** The related codes of `n`, by a loop over the generated codes. */
  method FilterRelated(n: NamasteCode, icds: seq<IcdCode>) returns (related: seq<IcdCode>)
    ensures related == RelatedCodes(n, icds)
  {
    related := [];
    var stripped := Stripped(n.code);
    for k := 0 to |icds|
      invariant related == RelatedCodes(n, icds[..k])
    {
      assert icds[..k + 1][..k] == icds[..k];
      if Contains(icds[k].code, stripped) {
        related := related + [icds[k]];
      }
    }
    assert icds[..|icds|] == icds;
  }

  /**
   * `createAutoMappings`: saves each attempted mapping whose triple is not
   * stored yet and returns how many were created.
   */
  method CreateAutoMappings(namastes: seq<NamasteCode>, icds: seq<IcdCode>, table: MappingTable)
    returns (created: nat)
    modifies table
    ensures var made := Dedupe(AutoProposed(namastes, icds), KeysOf(old(table.rows)));
      table.rows == old(table.rows) + made && created == |made|
  {
    created := 0;
    ghost var existing := KeysOf(table.rows);
    for i := 0 to |namastes|
      invariant table.rows == old(table.rows) + Dedupe(AutoProposed(namastes[..i], icds), existing)
      invariant created == |Dedupe(AutoProposed(namastes[..i], icds), existing)|
    {
      var n := namastes[i];
      ghost var done := AutoProposed(namastes[..i], icds);
      var related := FilterRelated(n, icds);
      var batch := AutoMappingsOf(n, related);
      AutoProposedNext(namastes, icds, i);
      ghost var before := Dedupe(done, existing);
      ghost var rowsBefore := table.rows;
      KeysOfAppend(old(table.rows), before);
      DedupeAppend(done, batch, existing);
      var made, passed := table.SaveNew(batch);
      ghost var after := Dedupe(batch, existing + KeysOf(before));
      AppendAssociative(old(table.rows), before, after);
      created := created + made;
    }
    assert namastes[..|namastes|] == namastes;
  }

  /**
   * The `end` handler of the command: no accepted code is an error before any
   * insert; otherwise the ICD codes are generated, the mappings created, and a
   * ConceptMap over all stored mappings is produced only when a mapping was
   * created.  Storing the NAMASTE codes themselves is not modelled.
   */
  method FinishIngestion(results: seq<NamasteCode>, icdTable: IcdTable, mappings: MappingTable, date: string)
    returns (r: Result<nat, string>, conceptMap: Option<ConceptMap>)
    modifies icdTable, mappings
    ensures results == [] ==>
      r == Failure(NoCodesMessage) && conceptMap == None
      && icdTable.rows == old(icdTable.rows) && mappings.rows == old(mappings.rows)
    ensures results != [] ==>
      && icdTable.rows == WithMissing(old(icdTable.rows), AllGenerated(results))
      && |old(icdTable.rows)| <= |icdTable.rows|
      && var generated := icdTable.rows[|old(icdTable.rows)|..];
         var made := Dedupe(AutoProposed(results, generated), KeysOf(old(mappings.rows)));
         && mappings.rows == old(mappings.rows) + made
         && r == Success(|made|)
         && (conceptMap.Some? <==> |made| > 0)
         && (conceptMap.Some? ==> conceptMap.value == GenerateConceptMap(mappings.rows, date))
  {
    if |results| == 0 {
      return Failure(NoCodesMessage), None;
    }
    var generated := GenerateEquivalentIcdCodes(results, icdTable);
    assert icdTable.rows[|old(icdTable.rows)|..] == generated;
    var created := CreateAutoMappings(results, generated, mappings);
    r := Success(created);
    conceptMap := if created > 0 then Some(GenerateConceptMap(mappings.rows, date)) else None;
  }
}
