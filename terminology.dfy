/**
 * The code-system records the commands share: NAMASTE codes, ICD-11 codes
 * (Traditional Medicine Module 2 or biomedicine) and NAMASTE-to-ICD mappings.
 */
module Terminology {
  import opened Wrappers

  datatype IcdType = TM2 | Biomedicine

  /** The FHIR ConceptMap equivalence codes a mapping may carry. */
  datatype Equivalence =
    | RelatedTo | Equivalent | Equal | Wider | Subsumes | Narrower | Specializes | Inexact | Unmatched | Disjoint

  datatype NamasteCode = NamasteCode(
    code: string, name: string, description: string, category: Option<string>, system: string)

  datatype IcdCode = IcdCode(
    code: string, title: string, icdType: IcdType, description: Option<string>, system: string, version: string)

  /** A stored mapping from a NAMASTE code to an ICD code; its creation time is not modelled. */
  datatype Mapping = Mapping(
    namasteCode: string, icdCode: string, icdType: IcdType, equivalence: Equivalence,
    confidence: real, mappedBy: string)

  /** What identifies a mapping when the commands look for an existing one. */
  datatype MappingKey = MappingKey(namasteCode: string, icdCode: string, icdType: IcdType)

  function KeyOf(m: Mapping): MappingKey {
    MappingKey(m.namasteCode, m.icdCode, m.icdType)
  }

  function IcdTypeName(t: IcdType): string {
    match t
    case TM2 => "TM2"
    case Biomedicine => "Biomedicine"
  }

  function KeysOf(ms: seq<Mapping>): set<MappingKey> {
    set m | m in ms :: KeyOf(m)
  }

  lemma KeysOfSnoc(ms: seq<Mapping>, m: Mapping)
    ensures KeysOf(ms + [m]) == KeysOf(ms) + {KeyOf(m)}
  {
    assert forall x :: x in ms + [m] <==> x in ms || x == m;
  }

  lemma KeysOfAppend(a: seq<Mapping>, b: seq<Mapping>)
    ensures KeysOf(a + b) == KeysOf(a) + KeysOf(b)
  {
    assert forall x :: x in a + b <==> x in a || x in b;
  }

  lemma AppendAssociative<T>(a: seq<T>, b: seq<T>, c: seq<T>)
    ensures (a + b) + c == a + (b + c)
  {
  }

  /**
   * The mappings created when `proposed` are saved one by one into a collection
   * already holding `existing`: each one whose key is not present yet.
   */
  function Dedupe(proposed: seq<Mapping>, existing: set<MappingKey>): seq<Mapping> {
    if proposed == [] then []
    else
      var init, p := proposed[..|proposed| - 1], proposed[|proposed| - 1];
      var before := Dedupe(init, existing);
      if KeyOf(p) in existing + KeysOf(before) then before else before + [p]
  }

  /**
   * Saving creates no more mappings than proposed, each one proposed and new,
   * no two with the same key, and afterwards every proposed key is stored.
   */
  lemma {:induction false} DedupeProperties(proposed: seq<Mapping>, existing: set<MappingKey>)
    ensures var created := Dedupe(proposed, existing);
      && |created| <= |proposed|
      && (forall m :: m in created ==> m in proposed && KeyOf(m) !in existing)
      && (forall i, j :: 0 <= i < j < |created| ==> KeyOf(created[i]) != KeyOf(created[j]))
      && (forall m :: m in proposed ==> KeyOf(m) in existing + KeysOf(created))
  {
    if proposed != [] {
      var init, p := proposed[..|proposed| - 1], proposed[|proposed| - 1];
      assert proposed == init + [p];
      DedupeProperties(init, existing);
      var before := Dedupe(init, existing);
      KeysOfSnoc(before, p);
      if KeyOf(p) !in existing + KeysOf(before) {
        var created := before + [p];
        forall i, j | 0 <= i < j < |created|
          ensures KeyOf(created[i]) != KeyOf(created[j])
        {
          if j == |before| {
            assert created[i] in before;
          }
        }
      }
    }
  }

  /** Saving two batches in turn creates what saving them as one does. */
  lemma {:induction false} DedupeAppend(a: seq<Mapping>, b: seq<Mapping>, existing: set<MappingKey>)
    ensures Dedupe(a + b, existing) == Dedupe(a, existing) + Dedupe(b, existing + KeysOf(Dedupe(a, existing)))
  {
    if b == [] {
      assert a + b == a;
    } else {
      var init, p := b[..|b| - 1], b[|b| - 1];
      assert b == init + [p];
      assert (a + b)[..|a + b| - 1] == a + init;
      DedupeAppend(a, init, existing);
      var da := Dedupe(a, existing);
      var di := Dedupe(init, existing + KeysOf(da));
      KeysOfAppend(da, di);
    }
  }

  /** The `concept_map` collection: the stored mappings, in insertion order. */
  class MappingTable {
    var rows: seq<Mapping>

    constructor (rows: seq<Mapping>)
      ensures this.rows == rows
    {
      this.rows := rows;
    }

    /** The `findOne` on namasteCode, icdCode and icdType. */
    predicate Has(key: MappingKey)
      reads this
    {
      exists k :: 0 <= k < |rows| && KeyOf(rows[k]) == key
    }

    lemma HasKeys(key: MappingKey)
      ensures Has(key) <==> key in KeysOf(rows)
    {
      if key in KeysOf(rows) {
        var m :| m in rows && KeyOf(m) == key;
        var k :| 0 <= k < |rows| && rows[k] == m;
      }
    }

    method Save(m: Mapping)
      modifies this
      ensures rows == old(rows) + [m]
    {
      rows := rows + [m];
    }

    /**
     * Saves each mapping of `batch` in turn unless one with its key is stored by
     * then; counts the ones saved and the ones skipped.
     */
    method SaveNew(batch: seq<Mapping>) returns (created: nat, skipped: nat)
      modifies this
      ensures rows == old(rows) + Dedupe(batch, KeysOf(old(rows)))
      ensures created == |Dedupe(batch, KeysOf(old(rows)))| && created + skipped == |batch|
    {
      created, skipped := 0, 0;
      ghost var existing := KeysOf(rows);
      for j := 0 to |batch|
        invariant rows == old(rows) + Dedupe(batch[..j], existing)
        invariant created == |Dedupe(batch[..j], existing)| && created + skipped == j
      {
        var m := batch[j];
        assert batch[..j + 1][..j] == batch[..j];
        HasKeys(KeyOf(m));
        KeysOfAppend(old(rows), Dedupe(batch[..j], existing));
        if Has(KeyOf(m)) {
          skipped := skipped + 1;
        } else {
          Save(m);
          created := created + 1;
        }
      }
      assert batch[..|batch|] == batch;
    }
  }
}
